/**
 * The avatar initials in the page header: the first character of every
 * dot-separated piece of the email's local part, upper-cased.
 */
module Header {
  import opened JsString

  /** `email.split("@")[0]`: the text before the first "@", or all of it. */
  function LocalPart(email: string): (lp: string)
    ensures '@' !in lp
    ensures lp <= email
    ensures |lp| < |email| ==> email[|lp|] == '@'
    ensures '@' !in email ==> lp == email
  {
    var parts := Split(email, '@');
    if |parts| == 1 then parts[0]
    else
      assert email == parts[0] + ['@'] + Join(parts[1..], '@');
      parts[0]
  }

  /**
   * `.map((n) => n[0]).join("")`: the first character of every piece; an
   * empty piece yields `undefined`, which `join` writes as nothing.
   */
  function FirstChars(parts: seq<string>): string
  {
    if parts == [] then ""
    else (if parts[0] == "" then "" else [parts[0][0]]) + FirstChars(parts[1..])
  }

  /** `getInitials(email)`. */
  function Initials(email: string): (r: string)
    ensures r == ToUpper(PieceStarts(LocalPart(email), true))
    ensures |r| == NonEmptyCount(Split(LocalPart(email), '.'))
  {
    var lp := LocalPart(email);
    PieceStartsAreFirstChars(lp);
    FirstCharsCount(Split(lp, '.'));
    ToUpper(FirstChars(Split(lp, '.')))
  }

  /**
   * The characters of `s` that begin a piece: each character other than a dot
   * that stands first or right after a dot (`atStart` says whether the text
   * before `s` ended a piece).
   */
  function PieceStarts(s: string, atStart: bool): string
    decreases |s|
  {
    if s == [] then ""
    else if s[0] == '.' then PieceStarts(s[1..], true)
    else (if atStart then [s[0]] else "") + PieceStarts(s[1..], false)
  }

  function NonEmptyCount(parts: seq<string>): nat
  {
    if parts == [] then 0 else (if parts[0] == "" then 0 else 1) + NonEmptyCount(parts[1..])
  }

  /** Splitting on dots and taking first characters picks exactly the piece starts. */
  lemma {:induction false} PieceStartsAreFirstChars(s: string)
    ensures PieceStarts(s, true) == FirstChars(Split(s, '.'))
    ensures PieceStarts(s, false) == FirstChars(Split(s, '.')[1..])
    decreases |s|
  {
    if s != [] {
      PieceStartsAreFirstChars(s[1..]);
      var rest := Split(s[1..], '.');
      if s[0] == '.' {
        assert Split(s, '.') == [""] + rest;
        assert Split(s, '.')[1..] == rest;
      } else {
        assert Split(s, '.') == [[s[0]] + rest[0]] + rest[1..];
        assert Split(s, '.')[1..] == rest[1..];
      }
    }
  }

  /** One initial per non-empty piece. */
  lemma {:induction false} FirstCharsCount(parts: seq<string>)
    ensures |FirstChars(parts)| == NonEmptyCount(parts)
  {
    if parts != [] {
      FirstCharsCount(parts[1..]);
    }
  }

  /** Only the text before the first "@" counts. */
  lemma OnlyLocalPartCounts(local: string, domain: string)
    requires '@' !in local
    ensures LocalPart(local + "@" + domain) == local
    ensures Initials(local + "@" + domain) == Initials(local)
  {
    SplitFirstPiece(local, domain, '@');
    assert local + "@" + domain == local + ['@'] + domain;
  }

  /** The usual case: "john.doe@" followed by any domain gives "JD". */
  lemma JohnDoe(domain: string)
    ensures Initials("john.doe@" + domain) == "JD"
  {
    var local := "john.doe";
    var email := "john.doe@" + domain;
    assert email == local + "@" + domain;
    assert '@' !in local;
    OnlyLocalPartCounts(local, domain);
    JohnDoeLocal();
  }

  lemma JohnDoeLocal()
    ensures Initials("john.doe") == "JD"
  {
    var local := "john.doe";
    assert LocalPart(local) == local;
    JohnDoeStarts();
    assert ToUpper("jd") == "JD";
  }

  lemma JohnDoeStarts()
    ensures PieceStarts("john.doe", true) == "jd"
  {
  }

  /** `getInitials` is total, and an empty email gives an empty string. */
  lemma EmptyEmail()
    ensures Initials("") == ""
  {
  }
}
