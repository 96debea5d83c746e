/** The name an upload is stored under: the original base name with each
    run of whitespace replaced by one hyphen, then the upload time in
    milliseconds, a random number, and the original extension. How the
    original name splits into base and extension is taken as given. */
module UploadNaming {
  import opened Strings
  import opened Decimal

  /** What one character of `s` contributes to the sanitized name: itself
      when it is not whitespace, one hyphen when it starts a whitespace run,
      nothing when it continues one. */
  function Emitted(s: string, i: nat): string
    requires i < |s|
  {
    if !IsJsWhitespace(s[i]) then [s[i]]
    else if i > 0 && IsJsWhitespace(s[i - 1]) then []
    else "-"
  }

  /** The contributions of the first `n` characters, in order. */
  function EmittedUpTo(s: string, n: nat): string
    requires n <= |s|
  {
    if n == 0 then [] else EmittedUpTo(s, n - 1) + Emitted(s, n - 1)
  }

  /** A left-to-right scan replacing whitespace runs by one hyphen;
      `inRun` says whether the character before `s` was whitespace. */
  function SanitizeFrom(s: string, inRun: bool): (r: string)
    ensures NoWhitespace(r)
    ensures |r| <= |s|
  {
    if s == [] then []
    else if IsJsWhitespace(s[0]) then (if inRun then [] else "-") + SanitizeFrom(s[1..], true)
    else [s[0]] + SanitizeFrom(s[1..], false)
  }

  /** `base.replace(/\s+/g, "-")`. */
  function Sanitize(base: string): (r: string)
    ensures NoWhitespace(r)
    ensures |r| <= |base|
  {
    SanitizeFrom(base, false)
  }

  lemma {:induction false} SanitizeSplit(s: string, n: nat)
    requires n <= |s|
    ensures EmittedUpTo(s, n) + SanitizeFrom(s[n..], n > 0 && IsJsWhitespace(s[n - 1])) == Sanitize(s)
    decreases n
  {
    if n > 0 {
      SanitizeSplit(s, n - 1);
      var tail := s[n - 1..];
      assert tail[0] == s[n - 1] && tail[1..] == s[n..];
    }
  }

  /** The scan agrees with the per-character reading: every non-whitespace
      character is kept in place and every maximal whitespace run becomes
      exactly one hyphen. */
  lemma SanitizeIsPerCharacter(s: string)
    ensures Sanitize(s) == EmittedUpTo(s, |s|)
  {
    SanitizeSplit(s, |s|);
    assert s[|s|..] == [];
  }

  lemma {:induction false} SanitizeFromClean(s: string, inRun: bool)
    requires NoWhitespace(s)
    ensures SanitizeFrom(s, inRun) == s
  {
    if s != [] {
      SanitizeFromClean(s[1..], false);
    }
  }

  /** A name without whitespace is kept as it is, so sanitizing twice is
      sanitizing once. */
  lemma SanitizeIdempotent(s: string)
    ensures NoWhitespace(s) ==> Sanitize(s) == s
    ensures Sanitize(Sanitize(s)) == Sanitize(s)
  {
    if NoWhitespace(s) {
      SanitizeFromClean(s, false);
    }
    SanitizeFromClean(Sanitize(s), false);
  }

  /** The multer `filename` callback: `${base}-${Date.now()}-${random}${ext}`
      with `base` sanitized. `random` stands for `Math.round(Math.random() * 1e9)`. */
  function StoredName(base: string, ext: string, timestamp: nat, random: nat): (r: string)
    ensures Sanitize(base) + "-" <= r
    ensures |r| >= |ext| && r[|r| - |ext|..] == ext
    ensures NoWhitespace(ext) ==> NoWhitespace(r)
  {
    var r := Sanitize(base) + "-" + Render(timestamp) + "-" + Render(random) + ext;
    assert r[|r| - |ext|..] == ext;
    r
  }

  /** The position of the first hyphen in `s`, or `|s|` when there is none. */
  function FirstHyphen(s: string): (k: nat)
    ensures k <= |s|
  {
    if s == [] || s[0] == '-' then 0 else 1 + FirstHyphen(s[1..])
  }

  lemma {:induction false} FirstHyphenAfterDigits(a: string, c: string)
    requires AllDigits(a)
    ensures FirstHyphen(a + "-" + c) == |a|
  {
    if a != [] {
      assert (a + "-" + c)[1..] == a[1..] + "-" + c;
      FirstHyphenAfterDigits(a[1..], c);
    }
  }

  /** Two digit strings joined by a hyphen split back uniquely, because a
      digit is never a hyphen. */
  lemma HyphenJoinSplits(a: string, c: string, b: string, d: string)
    requires AllDigits(a) && AllDigits(b)
    requires a + "-" + c == b + "-" + d
    ensures a == b && c == d
  {
    var x := a + "-" + c;
    FirstHyphenAfterDigits(a, c);
    FirstHyphenAfterDigits(b, d);
    assert a == x[..|a|] == b;
    assert c == x[|a| + 1..] == d;
  }

  lemma NumeralPairInjective(t1: nat, r1: nat, t2: nat, r2: nat)
    requires Render(t1) + "-" + Render(r1) == Render(t2) + "-" + Render(r2)
    ensures t1 == t2 && r1 == r2
  {
    HyphenJoinSplits(Render(t1), Render(r1), Render(t2), Render(r2));
    RenderInjective(t1, t2);
    RenderInjective(r1, r2);
  }

  /** Between the sanitized base and the extension the stored name holds
      the timestamp's numeral, a hyphen and the random number's numeral, in
      that order: non-empty digit strings without leading zeros (only zero
      itself is written "0") that a decimal parser reads back. */
  lemma StoredNameMiddle(base: string, ext: string, timestamp: nat, random: nat)
    ensures exists a, b ::
              && AllDigits(a) && AllDigits(b)
              && |a| >= 1 && |b| >= 1
              && (a[0] == '0' ==> a == "0") && (b[0] == '0' ==> b == "0")
              && Parse(a) == timestamp && Parse(b) == random
              && StoredName(base, ext, timestamp, random) == Sanitize(base) + "-" + a + "-" + b + ext
  {
    ParseRender(timestamp);
    ParseRender(random);
    var a, b := Render(timestamp), Render(random);
    assert StoredName(base, ext, timestamp, random) == Sanitize(base) + "-" + a + "-" + b + ext;
  }

  /** Collision avoidance: for one original name, different upload times or
      random numbers give different stored names. */
  lemma StoredNameDeterminesSuffix(base: string, ext: string, t1: nat, r1: nat, t2: nat, r2: nat)
    requires StoredName(base, ext, t1, r1) == StoredName(base, ext, t2, r2)
    ensures t1 == t2 && r1 == r2
  {
    var p := Sanitize(base) + "-";
    var m1 := Render(t1) + "-" + Render(r1);
    var m2 := Render(t2) + "-" + Render(r2);
    var n := StoredName(base, ext, t1, r1);
    assert n == p + m1 + ext;
    assert n == p + m2 + ext;
    assert m1 == n[|p|..|n| - |ext|];
    assert m2 == n[|p|..|n| - |ext|];
    NumeralPairInjective(t1, r1, t2, r2);
  }
}
