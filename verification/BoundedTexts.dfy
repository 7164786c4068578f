/** `_bounded_text`: a stripped, non-empty string within a length. */
module BoundedTexts {
  import opened Outcomes

  /** A JSON value where a string is wanted. */
  datatype Field = NotText | Text(text: string)

  predicate IsSpace(c: char) {
    var n := c as int;
    9 <= n <= 13 || 28 <= n <= 32 || n == 0x85 || n == 0xa0 || n == 0x1680 || 0x2000 <= n <= 0x200a
    || n == 0x2028 || n == 0x2029 || n == 0x202f || n == 0x205f || n == 0x3000
  }

  predicate IsStripped(s: string) {
    s == [] || (!IsSpace(s[0]) && !IsSpace(s[|s| - 1]))
  }

  function StripRight(s: string): (r: string)
    ensures r <= s && (r == [] || !IsSpace(r[|r| - 1]))
  {
    if s != [] && IsSpace(s[|s| - 1]) then StripRight(s[..|s| - 1]) else s
  }

  function Strip(s: string): (r: string)
    ensures IsStripped(r)
    ensures IsStripped(s) ==> r == s
  {
    if s != [] && IsSpace(s[0]) then Strip(s[1..]) else StripRight(s)
  }

  function BoundedText(field: Field, maximum: nat): (clean: Option<string>)
    ensures clean.Some? ==> IsBounded(clean.value, maximum)
    ensures field.Text? && IsBounded(field.text, maximum) ==> clean == Some(field.text)
  {
    if field.NotText? then None
    else
      var clean := Strip(field.text);
      if clean == [] || |clean| > maximum then None else Some(clean)
  }

  predicate IsBounded(s: string, maximum: nat) {
    s != [] && |s| <= maximum && IsStripped(s)
  }

  predicate IsBlank(s: string) {
    forall i :: 0 <= i < |s| ==> IsSpace(s[i])
  }

  lemma {:induction false} StripRightIs(core: string, after: string)
    requires IsBlank(after) && (core == [] || !IsSpace(core[|core| - 1]))
    ensures StripRight(core + after) == core
    decreases |after|
  {
    var s := core + after;
    if after == [] {
      assert s == core;
    } else {
      assert s[|s| - 1] == after[|after| - 1] && s[..|s| - 1] == core + after[..|after| - 1];
      StripRightIs(core, after[..|after| - 1]);
    }
  }

  /** Whatever white space surrounds a stripped text, stripping gives the text. */
  lemma {:induction false} StripIs(before: string, core: string, after: string)
    requires IsBlank(before) && IsBlank(after) && IsStripped(core)
    ensures Strip(before + (core + after)) == core
    decreases |before| + |after|
  {
    var s := before + (core + after);
    if before != [] {
      assert s[0] == before[0] && s[1..] == before[1..] + (core + after);
      StripIs(before[1..], core, after);
    } else {
      assert s == core + after;
      if core == [] && after != [] {
        assert s == after && s[1..] == [] + ([] + after[1..]);
        StripIs([], [], after[1..]);
      } else {
        StripRightIs(core, after);
      }
    }
  }

  /** Bounded text is the field without the white space around it, when that is not empty and within the bound. */
  lemma BoundedTextIs(before: string, core: string, after: string, maximum: nat)
    requires IsBlank(before) && IsBlank(after) && IsStripped(core)
    ensures BoundedText(Text(before + (core + after)), maximum) == if core == [] || |core| > maximum then None else Some(core)
    ensures BoundedText(NotText, maximum) == None
  {
    StripIs(before, core, after);
  }

  lemma {:induction false} StrippedRightRest(s: string) returns (after: string)
    ensures IsBlank(after) && s == StripRight(s) + after
  {
    if s != [] && IsSpace(s[|s| - 1]) {
      var rest := StrippedRightRest(s[..|s| - 1]);
      after := rest + [s[|s| - 1]];
      assert s == s[..|s| - 1] + [s[|s| - 1]];
    } else {
      after := [];
    }
  }

  /** Every text is of that form. */
  lemma {:induction false} EveryTextHasACore(s: string) returns (before: string, core: string, after: string)
    ensures IsBlank(before) && IsBlank(after) && IsStripped(core) && s == before + (core + after)
  {
    if s != [] && IsSpace(s[0]) {
      var b;
      b, core, after := EveryTextHasACore(s[1..]);
      before := [s[0]] + b;
      assert s == [s[0]] + s[1..];
    } else {
      core := StripRight(s);
      after := StrippedRightRest(s);
      before := [];
      assert Strip(s) == core;
    }
  }
}
