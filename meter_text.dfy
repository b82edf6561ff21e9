// Utility meter (next gen): `clean_string`, the entity-id slug used for the
// calculated sensors (sensor.py).

module MeterText {
  import opened Common

  /** Characters a cleaned slug may contain: `[a-z0-9_]`. */
  predicate SlugChar(c: char) { IsLower(c) || IsDigit(c) || c == '_' }

  predicate NoDoubleUnderscore(s: string)
  {
    forall i :: 0 <= i < |s| - 1 ==> !(s[i] == '_' && s[i + 1] == '_')
  }

  predicate AlnumOrUnderscore(s: string)
  {
    forall i :: 0 <= i < |s| ==> IsAlnum(s[i]) || s[i] == '_'
  }

  /** `re.sub(r"[^a-zA-Z0-9]", "_", s)`. */
  function ReplaceNonAlnum(s: string): (r: string)
    ensures |r| == |s| && AlnumOrUnderscore(r)
    ensures forall i :: 0 <= i < |s| ==> r[i] == (if IsAlnum(s[i]) then s[i] else '_')
  {
    seq(|s|, i requires 0 <= i < |s| => if IsAlnum(s[i]) then s[i] else '_')
  }

  /** `re.sub(r"_+", "_", s)`: every run of underscores becomes one. */
  function Collapse(s: string): (r: string)
    ensures |r| <= |s|
    ensures |s| > 0 ==> |r| > 0 && r[0] == s[0]
    ensures AlnumOrUnderscore(s) ==> AlnumOrUnderscore(r)
    ensures NoDoubleUnderscore(r)
    decreases |s|
  {
    if |s| <= 1 then s
    else if s[0] == '_' && s[1] == '_' then Collapse(s[1..])
    else [s[0]] + Collapse(s[1..])
  }

  /** Python's `clean_string`: replace, collapse, lower-case. */
  function CleanString(s: string): (r: string)
    ensures forall i :: 0 <= i < |r| ==> SlugChar(r[i])
    ensures NoDoubleUnderscore(r)
    ensures |r| <= |s|
  {
    var c := Collapse(ReplaceNonAlnum(s));
    LowerString(c)
  }

  // ---- what survives cleaning -------------------------------------------------

  /** The letters and digits of `s`, in order. */
  function Alnums(s: string): string
  {
    if |s| == 0 then "" else (if IsAlnum(s[0]) then [s[0]] else "") + Alnums(s[1..])
  }

  /** `s` without its underscores. */
  function Strip(s: string): string
  {
    if |s| == 0 then "" else (if s[0] == '_' then "" else [s[0]]) + Strip(s[1..])
  }

  lemma {:induction false} StripReplace(s: string)
    ensures Strip(ReplaceNonAlnum(s)) == Alnums(s)
    decreases |s|
  {
    if |s| > 0 {
      StripReplace(s[1..]);
      assert ReplaceNonAlnum(s)[1..] == ReplaceNonAlnum(s[1..]);
    }
  }

  lemma {:induction false} StripCollapse(s: string)
    ensures Strip(Collapse(s)) == Strip(s)
    decreases |s|
  {
    if |s| > 1 {
      StripCollapse(s[1..]);
      if !(s[0] == '_' && s[1] == '_') {
        assert ([s[0]] + Collapse(s[1..]))[1..] == Collapse(s[1..]);
      }
    }
  }

  lemma {:induction false} StripLower(s: string)
    ensures Strip(LowerString(s)) == LowerString(Strip(s))
    decreases |s|
  {
    if |s| > 0 {
      StripLower(s[1..]);
      assert LowerString(s)[1..] == LowerString(s[1..]);
      var t := if s[0] == '_' then "" else [s[0]];
      LowerAppend(t, Strip(s[1..]));
    }
  }

  lemma LowerAppend(a: string, b: string)
    ensures LowerString(a + b) == LowerString(a) + LowerString(b)
  {
    assert LowerString(a + b) == LowerString(a) + LowerString(b);
  }

  /** Cleaning keeps exactly the letters and digits of the input, lower-cased and in order. */
  lemma CleanStringKeepsAlnums(s: string)
    ensures Strip(CleanString(s)) == LowerString(Alnums(s))
  {
    var c := Collapse(ReplaceNonAlnum(s));
    StripLower(c);
    StripCollapse(ReplaceNonAlnum(s));
    StripReplace(s);
  }

  lemma {:induction false} CollapseIdentity(s: string)
    requires NoDoubleUnderscore(s)
    ensures Collapse(s) == s
    decreases |s|
  {
    if |s| > 1 {
      CollapseIdentity(s[1..]);
    }
  }

  /**
   * A reference for `Collapse` written as one left-to-right scan, the way the
   * regular expression engine substitutes: an underscore is copied only when
   * the character before it was not one.
   */
  function CollapseAfter(s: string, afterUnderscore: bool): string
  {
    if |s| == 0 then ""
    else if s[0] == '_' then (if afterUnderscore then "" else "_") + CollapseAfter(s[1..], true)
    else [s[0]] + CollapseAfter(s[1..], false)
  }

  lemma {:induction false} CollapseFromFirst(s: string)
    requires |s| > 0
    ensures Collapse(s) == [s[0]] + CollapseAfter(s[1..], s[0] == '_')
    decreases |s|
  {
    if |s| > 1 {
      CollapseFromFirst(s[1..]);
      assert s[1..][1..] == s[2..];
    }
  }

  /** `Collapse` agrees with the one-pass scan on every input: each run of underscores becomes exactly one. */
  lemma CollapseIsOnePass(s: string)
    ensures Collapse(s) == CollapseAfter(s, false)
  {
    if |s| > 0 {
      CollapseFromFirst(s);
    }
  }

  lemma {:induction false} ScanMergesRun(x: string, y: string, afterUnderscore: bool)
    ensures CollapseAfter(x + "__" + y, afterUnderscore) == CollapseAfter(x + "_" + y, afterUnderscore)
    decreases |x|
  {
    if |x| == 0 {
      assert x + "__" + y == "__" + y && ("__" + y)[1..] == "_" + y;
      assert x + "_" + y == "_" + y && ("_" + y)[1..] == y;
    } else {
      assert (x + "__" + y)[0] == x[0] && (x + "__" + y)[1..] == x[1..] + "__" + y;
      assert (x + "_" + y)[0] == x[0] && (x + "_" + y)[1..] == x[1..] + "_" + y;
      ScanMergesRun(x[1..], y, x[0] == '_');
    }
  }

  /**
   * A second underscore anywhere makes no difference: together with
   * `CollapseIdentity` this pins `Collapse` down on every input.
   */
  lemma CollapseMergesRun(x: string, y: string)
    ensures Collapse(x + "__" + y) == Collapse(x + "_" + y)
  {
    CollapseIsOnePass(x + "__" + y);
    CollapseIsOnePass(x + "_" + y);
    ScanMergesRun(x, y, false);
  }

  /** Cleaning is the one-pass scan over the replaced text, lower-cased. */
  lemma CleanStringIsOnePass(s: string)
    ensures CleanString(s) == LowerString(CollapseAfter(ReplaceNonAlnum(s), false))
  {
    CollapseIsOnePass(ReplaceNonAlnum(s));
  }

  /** Cleaning a cleaned slug changes nothing. */
  lemma CleanStringIdempotent(s: string)
    ensures CleanString(CleanString(s)) == CleanString(s)
  {
    var r := CleanString(s);
    assert ReplaceNonAlnum(r) == r;
    CollapseIdentity(r);
    assert LowerString(r) == r;
  }
}
