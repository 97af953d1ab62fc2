/**
 Epoch, version and release as one string: format_evr() of backend/copr_backend/helpers.py and
 parse_version() of backend/copr_backend/rpmeta.py, which reads epoch and version back.
 */
module Evr {
  import opened Wrappers

  /** The epoch argument: null, an integer, or a string. */
  datatype Epoch = Null | Int(value: int) | Text(text: string)

  // ---------------------------------------------------------------- characters and integers

  predicate Digit(c: char) {
    '0' <= c <= '9'
  }

  predicate Space(c: char) {
    c == ' ' || '\t' <= c <= '\r' || '\U{1c}' <= c <= '\U{1f}'
  }

  predicate IsDigits(s: string) {
    s != "" && forall i :: 0 <= i < |s| ==> Digit(s[i])
  }

  function DigitOf(d: nat): char
    requires d < 10
  {
    ('0' as int + d) as char
  }

  function Decimal(n: nat): string {
    if n < 10 then [DigitOf(n)] else Decimal(n / 10) + [DigitOf(n % 10)]
  }

  /** str() of an integer. */
  function Str(n: int): string {
    if n < 0 then "-" + Decimal(-n) else Decimal(n)
  }

  /** The number written by digits; underscores between them do not count. */
  function Value(s: string): nat
    requires forall i :: 0 <= i < |s| ==> Digit(s[i]) || s[i] == '_'
  {
    if s == "" then 0
    else if s[|s| - 1] == '_' then Value(s[..|s| - 1])
    else
      assert Digit(s[|s| - 1]);
      10 * Value(s[..|s| - 1]) + (s[|s| - 1] as int - '0' as int)
  }

  function StripLeft(s: string): string {
    if s != "" && Space(s[0]) then StripLeft(s[1..]) else s
  }

  function StripRight(s: string): string {
    if s != "" && Space(s[|s| - 1]) then StripRight(s[..|s| - 1]) else s
  }

  /** Digits with single underscores between them. */
  predicate Grouped(s: string) {
    && s != "" && Digit(s[0]) && Digit(s[|s| - 1])
    && (forall i :: 0 <= i < |s| ==> Digit(s[i]) || s[i] == '_')
    && forall i :: 0 < i < |s| ==> Digit(s[i - 1]) || Digit(s[i])
  }

  /** int() of a string; None stands for ValueError. */
  function ParseInt(text: string): Option<int> {
    var s := StripLeft(StripRight(text));
    if s != "" && s[0] == '-' && Grouped(s[1..]) then Some(0 - Value(s[1..]) as int)
    else if s != "" && s[0] == '+' && Grouped(s[1..]) then Some(Value(s[1..]))
    else if Grouped(s) then Some(Value(s))
    else None
  }

  /** A string that is no number leaves the epoch at 0. */
  function OrZero(n: Option<int>): int {
    if n.Some? then n.value else 0
  }

  lemma {:induction false} DecimalReads(n: nat)
    ensures IsDigits(Decimal(n)) && Value(Decimal(n)) == n
  {
    if n < 10 {
      assert [DigitOf(n)][..0] == "";
    } else {
      DecimalReads(n / 10);
      assert Decimal(n)[..|Decimal(n)| - 1] == Decimal(n / 10);
    }
  }

  lemma Unstripped(s: string)
    requires s != "" && !Space(s[0]) && !Space(s[|s| - 1])
    ensures StripLeft(StripRight(s)) == s
  {
  }

  lemma ParseIntDigits(s: string)
    requires IsDigits(s)
    ensures ParseInt(s) == Some(Value(s)) && ParseInt("-" + s) == Some(0 - Value(s) as int)
  {
    assert Grouped(s);
    Unstripped(s);
    var t := "-" + s;
    assert t[|t| - 1] == s[|s| - 1] && t[1..] == s;
    Unstripped(t);
  }

  /** int() undoes str() for every integer. */
  lemma ParseIntStr(n: int)
    ensures ParseInt(Str(n)) == Some(n)
    ensures !Has(Str(n), ':')
  {
    var digits := Decimal(if n < 0 then -n else n);
    DecimalReads(if n < 0 then -n else n);
    ParseIntDigits(digits);
    assert Str(n) == if n < 0 then "-" + digits else digits;
  }

  predicate Blank(s: string) {
    forall i :: 0 <= i < |s| ==> Space(s[i])
  }

  /** White space goes from both ends, and nothing else. */
  lemma {:induction false} StripLeftShape(s: string) returns (before: string)
    ensures Blank(before) && s == before + StripLeft(s) && (StripLeft(s) != "" ==> !Space(StripLeft(s)[0]))
  {
    if s != "" && Space(s[0]) {
      var rest := StripLeftShape(s[1..]);
      before := [s[0]] + rest;
    } else {
      before := "";
    }
  }

  lemma {:induction false} StripRightShape(s: string) returns (after: string)
    ensures Blank(after) && s == StripRight(s) + after
    ensures StripRight(s) != "" ==> !Space(StripRight(s)[|StripRight(s)| - 1])
  {
    if s != "" && Space(s[|s| - 1]) {
      var rest := StripRightShape(s[..|s| - 1]);
      after := rest + [s[|s| - 1]];
    } else {
      after := "";
    }
  }

  lemma {:induction false} StripBefore(before: string, core: string)
    requires Blank(before) && core != "" && !Space(core[0])
    ensures StripLeft(before + core) == core
  {
    if before == "" {
      assert before + core == core;
    } else {
      assert (before + core)[1..] == before[1..] + core;
      StripBefore(before[1..], core);
    }
  }

  lemma {:induction false} StripAfter(core: string, after: string)
    requires Blank(after) && core != "" && !Space(core[|core| - 1])
    ensures StripRight(core + after) == core
  {
    if after == "" {
      assert core + after == core;
    } else {
      assert (core + after)[..|core + after| - 1] == core + after[..|after| - 1];
      StripAfter(core, after[..|after| - 1]);
    }
  }

  /** The text is this number: white space, at most one sign, grouped digits, white space. */
  predicate Reads(text: string, before: string, sign: string, digits: string, after: string, n: int) {
    && Blank(before) && Blank(after) && sign in {"", "+", "-"} && Grouped(digits)
    && text == before + (sign + digits) + after
    && n == if sign == "-" then 0 - Value(digits) as int else Value(digits)
  }

  /** int() reads exactly the texts of that form, and what they say. */
  lemma ParseIntExactly(text: string, n: int)
    ensures ParseInt(text) == Some(n) <==> exists before, sign, digits, after :: Reads(text, before, sign, digits, after, n)
  {
    if ParseInt(text) == Some(n) {
      var after := StripRightShape(text);
      var before := StripLeftShape(StripRight(text));
      var core := StripLeft(StripRight(text));
      assert text == before + core + after;
      if core != "" && core[0] == '-' && Grouped(core[1..]) {
        assert "-" + core[1..] == core;
        assert Reads(text, before, "-", core[1..], after, n);
      } else if core != "" && core[0] == '+' && Grouped(core[1..]) {
        assert "+" + core[1..] == core;
        assert Reads(text, before, "+", core[1..], after, n);
      } else {
        assert "" + core == core;
        assert Reads(text, before, "", core, after, n);
      }
    }
    if before, sign, digits, after :| Reads(text, before, sign, digits, after, n) {
      ReadsParsed(text, before, sign, digits, after, n);
    }
  }

  lemma StripBoth(before: string, core: string, after: string)
    requires Blank(before) && Blank(after) && core != "" && !Space(core[0]) && !Space(core[|core| - 1])
    ensures StripLeft(StripRight(before + core + after)) == core
  {
    StripAfter(before + core, after);
    StripBefore(before, core);
  }

  lemma ReadsParsed(text: string, before: string, sign: string, digits: string, after: string, n: int)
    requires Reads(text, before, sign, digits, after, n)
    ensures ParseInt(text) == Some(n)
  {
    hide Blank, ParseInt, Value, StripLeft, StripRight;
    var core := sign + digits;
    assert core[0] == if sign == "" then digits[0] else sign[0];
    assert core[|core| - 1] == digits[|digits| - 1];
    StripBoth(before, core, after);
    SignParsed(text, sign, digits);
  }

  lemma SignParsed(text: string, sign: string, digits: string)
    requires StripLeft(StripRight(text)) == sign + digits && sign in {"", "+", "-"} && Grouped(digits)
    ensures ParseInt(text) == Some(if sign == "-" then 0 - Value(digits) as int else Value(digits))
  {
    var core := sign + digits;
    if sign == "" {
      assert core == digits;
    } else {
      assert core[1..] == digits && core[0] == sign[0];
    }
  }

  // ---------------------------------------------------------------- separators

  predicate Has(s: string, c: char) {
    exists i :: 0 <= i < |s| && s[i] == c
  }

  /** Where the first c stands; the length if there is none. */
  function First(s: string, c: char): nat {
    if s == "" || s[0] == c then 0 else 1 + First(s[1..], c)
  }

  /** Where the last c stands; -1 if there is none. */
  function Last(s: string, c: char): int {
    if s == "" || s[|s| - 1] == c then |s| - 1 else Last(s[..|s| - 1], c)
  }

  lemma {:induction false} FirstIs(s: string, c: char)
    requires Has(s, c)
    ensures First(s, c) < |s| && s[First(s, c)] == c
    ensures forall j :: 0 <= j < First(s, c) ==> s[j] != c
  {
    if s[0] != c {
      var i :| 0 <= i < |s| && s[i] == c;
      assert s[1..][i - 1] == c;
      FirstIs(s[1..], c);
      forall j | 0 <= j < First(s, c) ensures s[j] != c {
        if j > 0 {
          assert s[1..][j - 1] == s[j];
        }
      }
    }
  }

  lemma {:induction false} LastIs(s: string, c: char)
    requires Has(s, c)
    ensures 0 <= Last(s, c) < |s| && s[Last(s, c)] == c
    ensures forall j :: Last(s, c) < j < |s| ==> s[j] != c
  {
    if s[|s| - 1] != c {
      var i :| 0 <= i < |s| && s[i] == c;
      assert s[..|s| - 1][i] == c;
      LastIs(s[..|s| - 1], c);
    }
  }

  /** A separator after text without it is the first one. */
  lemma FirstSeparator(a: string, c: char, b: string)
    requires !Has(a, c)
    ensures Has(a + [c] + b, c) && First(a + [c] + b, c) == |a|
  {
    var s := a + [c] + b;
    assert s[|a|] == c;
    FirstIs(s, c);
    assert forall j :: 0 <= j < |a| ==> s[j] == a[j];
  }

  /** A separator before text is the last one exactly when the text is without it. */
  lemma LastSeparator(a: string, c: char, b: string)
    ensures Has(a + [c] + b, c) && Last(a + [c] + b, c) >= |a|
    ensures Last(a + [c] + b, c) == |a| <==> !Has(b, c)
  {
    var s := a + [c] + b;
    assert s[|a|] == c;
    LastIs(s, c);
    assert forall j :: 0 <= j < |b| ==> s[|a| + 1 + j] == b[j];
    if Has(b, c) {
      var j :| 0 <= j < |b| && b[j] == c;
      assert s[|a| + 1 + j] == c;
    }
  }

  // ---------------------------------------------------------------- format and parse

  function FormatEvr(epoch: Epoch, version: string, release: string): string {
    match epoch
    case Int(n) => Str(n) + ":" + version + "-" + release
    case Text(s) =>
      if IsDigits(s) then s + ":" + version + "-" + release else version + "-" + release
    case Null => version + "-" + release
  }

  /** rsplit("-", 1)[0]; the whole string when there is no release to cut off. */
  function WithoutRelease(pv: string): string {
    if Has(pv, '-') then LastIs(pv, '-'); pv[..Last(pv, '-')] else pv
  }

  function ParseVersion(text: Option<string>): (int, string) {
    if text.None? || text.value == "" then (0, "0")
    else if Has(text.value, ':') then
      FirstIs(text.value, ':');
      var k := First(text.value, ':');
      (OrZero(ParseInt(text.value[..k])), WithoutRelease(text.value[k + 1..]))
    else (0, WithoutRelease(text.value))
  }

  /** Without a package version, epoch and version are zero; without separators, all of it is the version. */
  lemma NothingToSplit(text: string)
    requires !Has(text, ':') && !Has(text, '-')
    ensures ParseVersion(None) == (0, "0")
    ensures ParseVersion(Some(text)) == if text == "" then (0, "0") else (0, text)
  {
  }

  /** Cutting at the last dash gives the version back exactly when the release has no dash. */
  lemma VersionBack(version: string, release: string)
    ensures WithoutRelease(version + "-" + release) == version <==> !Has(release, '-')
    ensures version <= WithoutRelease(version + "-" + release)
  {
    LastSeparator(version, '-', release);
    var s := version + "-" + release;
    assert s == version + ['-'] + release;
    LastIs(s, '-');
    assert s[..|version|] == version;
  }

  /** Whatever stands before the first colon is the epoch. */
  lemma EpochFirst(epoch: string, version: string, release: string)
    requires !Has(epoch, ':')
    ensures ParseVersion(Some(epoch + ":" + version + "-" + release))
            == (OrZero(ParseInt(epoch)), WithoutRelease(version + "-" + release))
  {
    var rest := version + "-" + release;
    var s := epoch + ":" + version + "-" + release;
    assert s == epoch + ":" + rest;
    FirstSeparator(epoch, ':', rest);
    assert s == epoch + [':'] + rest;
    assert s[..|epoch|] == epoch && s[|epoch| + 1..] == rest;
  }

  /** For every integer epoch, negative ones too, the round trip succeeds iff the release has no dash. */
  lemma IntegerRoundTrip(epoch: int, version: string, release: string)
    ensures ParseVersion(Some(FormatEvr(Int(epoch), version, release))) == (epoch, version) <==> !Has(release, '-')
  {
    ParseIntStr(epoch);
    EpochFirst(Str(epoch), version, release);
    VersionBack(version, release);
  }

  /** An epoch given as digits comes back as the number they stand for. */
  lemma DigitsRoundTrip(epoch: string, version: string, release: string)
    requires IsDigits(epoch)
    ensures ParseVersion(Some(FormatEvr(Text(epoch), version, release))) == (Value(epoch), version)
            <==> !Has(release, '-')
  {
    ParseIntDigits(epoch);
    EpochFirst(epoch, version, release);
    VersionBack(version, release);
  }

  function Colons(s: string): nat {
    if s == "" then 0 else Colons(s[..|s| - 1]) + if s[|s| - 1] == ':' then 1 else 0
  }

  lemma {:induction false} ColonsConcat(s: string, t: string)
    ensures Colons(s + t) == Colons(s) + Colons(t)
  {
    if t == "" {
      assert s + t == s;
    } else {
      ColonsConcat(s, t[..|t| - 1]);
      assert (s + t)[..|s + t| - 1] == s + t[..|t| - 1];
    }
  }

  lemma {:induction false} NoColons(s: string)
    ensures Colons(s) == 0 <==> !Has(s, ':')
  {
    if s != "" {
      NoColons(s[..|s| - 1]);
      if Has(s, ':') && s[|s| - 1] != ':' {
        var i :| 0 <= i < |s| && s[i] == ':';
        assert s[..|s| - 1][i] == ':';
      }
      if Has(s[..|s| - 1], ':') {
        var i :| 0 <= i < |s| - 1 && s[..|s| - 1][i] == ':';
        assert s[i] == ':';
      }
    }
  }

  /** Text that is this version, or goes on with a dash and then has no other dash. */
  predicate Continues(text: string, version: string) {
    || (text == version && !Has(text, '-'))
    || (version + "-" <= text && !Has(text[|version| + 1..], '-'))
  }

  /** What is left over after the last dash is cut off. */
  lemma LeftOver(text: string, version: string)
    ensures WithoutRelease(text) == version <==> Continues(text, version)
  {
    var n := |version|;
    if version + "-" <= text {
      assert text == version + "-" + text[n + 1..];
      VersionBack(version, text[n + 1..]);
    }
    if Has(text, '-') {
      LastIs(text, '-');
      if text[..Last(text, '-')] == version {
        assert version + "-" == text[..n + 1];
      }
    }
  }

  /** Text that is read as the epoch 0, or as no number, which comes to the same. */
  predicate ReadsAsNoEpoch(text: string) {
    ParseInt(text) == None || ParseInt(text) == Some(0)
  }

  /**
   With a colon in the release: the cuts go wrong, and what is left over happens to be the version.
   The first colon is the one in the version, if there is one, at k: then the release has its only
   dash beyond k right there, and the version repeats itself shifted by k + 1.  Else the release
   goes on with the version after its first colon.
   */
  predicate LuckyCut(version: string, release: string)
    requires Has(release, ':')
  {
    FirstIs(release, ':');
    if Has(version, ':') then
      FirstIs(version, ':');
      var k := First(version, ':');
      && ReadsAsNoEpoch(version[..k])
      && k < |release| && release[k] == '-' && !Has(release[k + 1..], '-')
      && version[k + 1..] + "-" + release[..k] == version
    else
      var k := First(release, ':');
      && ReadsAsNoEpoch(version + "-" + release[..k])
      && Continues(release[k + 1..], version)
  }

  lemma ShiftedVersion(version: string, release: string, k: nat)
    requires k < |version|
    ensures WithoutRelease(version[k + 1..] + "-" + release) == version <==>
            && k < |release| && release[k] == '-' && !Has(release[k + 1..], '-')
            && version[k + 1..] + "-" + release[..k] == version
  {
    var n, text := |version|, version[k + 1..] + "-" + release;
    LeftOver(text, version);
    if k < |release| {
      assert text[..n] == version[k + 1..] + "-" + release[..k];
      assert text[n] == release[k] && text[n + 1..] == release[k + 1..];
      assert version + "-" <= text <==> text[..n] == version && text[n] == '-';
    }
    assert Has(text, '-') by { assert text[n - k - 1] == '-'; }
  }

  /**
   Without an epoch, or with one that is no digits, the round trip succeeds iff the version has no
   colon, which would be taken for the epoch's, and the release has no dash.  A colon in the
   release is cut at as well; then it succeeds by a lucky cut only.
   */
  lemma EpochlessRoundTrip(epoch: Epoch, version: string, release: string)
    requires epoch.Null? || (epoch.Text? && !IsDigits(epoch.text))
    ensures ParseVersion(Some(FormatEvr(epoch, version, release))) == (0, version) <==>
            if Has(release, ':') then LuckyCut(version, release) else !Has(version, ':') && !Has(release, '-')
  {
    if Has(release, ':') {
      if Has(version, ':') {
        ColonInVersion(version, release);
      } else {
        ColonInRelease(version, release);
      }
    } else {
      NoColonInRelease(version, release);
    }
  }

  lemma ColonInVersion(version: string, release: string)
    requires Has(version, ':') && Has(release, ':')
    ensures ParseVersion(Some(version + "-" + release)) == (0, version) <==> LuckyCut(version, release)
  {
    FirstIs(version, ':');
    var k := First(version, ':');
    assert version == version[..k] + ":" + version[k + 1..];
    EpochFirst(version[..k], version[k + 1..], release);
    ShiftedVersion(version, release, k);
    assert version + "-" + release == version[..k] + ":" + version[k + 1..] + "-" + release;
  }

  lemma ColonInRelease(version: string, release: string)
    requires !Has(version, ':') && Has(release, ':')
    ensures ParseVersion(Some(version + "-" + release)) == (0, version) <==> LuckyCut(version, release)
  {
    FirstIs(release, ':');
    var k := First(release, ':');
    var s, a, b := version + "-" + release, version + "-" + release[..k], release[k + 1..];
    assert s == a + [':'] + b;
    assert !Has(a, ':');
    FirstSeparator(a, ':', b);
    LeftOver(b, version);
    assert s[..|a|] == a && s[|a| + 1..] == b;
  }

  lemma NoColonInRelease(version: string, release: string)
    requires !Has(release, ':')
    ensures ParseVersion(Some(version + "-" + release)) == (0, version)
            <==> !Has(version, ':') && !Has(release, '-')
  {
    var s := version + "-" + release;
    VersionBack(version, release);
    NoColons(s);
    NoColons(version);
    NoColons(release);
    ColonsConcat(version + "-", release);
    ColonsConcat(version, "-");
    NoColons("-");
    if Has(version, ':') {
      FirstIs(s, ':');
      var k := First(s, ':');
      ColonLost(s, k);
      LostForGood(s[k + 1..]);
    }
  }

  /** Cutting at the first colon loses one colon. */
  lemma ColonLost(s: string, k: nat)
    requires k < |s| && s[k] == ':'
    ensures Colons(s[k + 1..]) < Colons(s)
  {
    assert s == s[..k] + [':'] + s[k + 1..];
    ColonsConcat(s[..k] + [':'], s[k + 1..]);
    ColonsConcat(s[..k], [':']);
    assert [':'][..0] == "";
  }

  lemma LostForGood(pv: string)
    ensures Colons(WithoutRelease(pv)) <= Colons(pv)
  {
    if Has(pv, '-') {
      LastIs(pv, '-');
      var k := Last(pv, '-');
      assert pv == pv[..k] + pv[k..];
      ColonsConcat(pv[..k], pv[k..]);
    }
  }

  /** A colon in the release is the one case where a wrong cut can give the right answer. */
  lemma LuckyAndUnlucky()
    ensures ParseVersion(Some(FormatEvr(Null, "1", "x:1"))) == (0, "1")
    ensures ParseVersion(Some(FormatEvr(Null, "2", "x:1"))) == (0, "1")
  {
    Lucky("1");
    Lucky("2");
  }

  lemma Lucky(version: string)
    requires version == "1" || version == "2"
    ensures ParseVersion(Some(FormatEvr(Null, version, "x:1"))) == (0, "1")
  {
    var s := version + "-" + "x:1";
    var epoch := version + "-x";
    assert s == epoch + ":" + "1";
    FirstSeparator(epoch, ':', "1");
    assert s[..|epoch|] == epoch && s[|epoch| + 1..] == "1";
    assert epoch[1] == '-' && !Digit('-');
    assert !Grouped(epoch);
    assert StripLeft(StripRight(epoch)) == epoch;
  }
}
