/** The baby's sex and its one-letter wire code
    (`domain/model/Baby.kt`, enum `BabySex`). */
module BabySexCodec {
  import opened Wrappers
  import opened Text

  datatype BabySex = Male | Female | Other

  /** The code sent to and received from the backend. */
  function Code(s: BabySex): (r: string)
    ensures |r| == 1
    ensures 'A' <= r[0] <= 'Z'
  {
    match s
    case Male => "M"
    case Female => "F"
    case Other => "O"
  }

  /** `BabySex.fromString`: total and case-insensitive. An absent value and
      every string other than a single `m`/`M` or `f`/`F` decode to `Other`. */
  function FromString(v: Option<string>): (r: BabySex)
    ensures v.None? ==> r == Other
    ensures r == Male <==> v.Some? && (v.value == "M" || v.value == "m")
    ensures r == Female <==> v.Some? && (v.value == "F" || v.value == "f")
  {
    match v
    case None => Other
    case Some(s) =>
      var u := Upper(s);
      if u == "M" then Male
      else if u == "F" then Female
      else if u == "O" then Other
      else Other
  }

  /** Decoding an encoded value gives it back. */
  lemma RoundTrip(s: BabySex)
    ensures FromString(Some(Code(s))) == s
  {
  }

  /** Distinct values have distinct codes. */
  lemma CodeInjective(a: BabySex, b: BabySex)
    ensures Code(a) == Code(b) ==> a == b
  {
  }

  /** Decoding ignores the case of its input. */
  lemma CaseInsensitive(s: string)
    ensures FromString(Some(Upper(s))) == FromString(Some(s))
  {
    var u := Upper(s);
    if |s| == 1 {
      assert u == [UpperChar(s[0])];
    }
  }

  /** The empty string, like every unknown code, decodes to `Other`. */
  lemma UnknownIsOther(s: string)
    requires Upper(s) != "M" && Upper(s) != "F"
    ensures FromString(Some(s)) == Other
  {
  }
}
