/** The two reprompting input helpers, ask_choice_int and ask_choice_str.
    The terminal is a scripted list of answers; running off its end is the
    end of input (input() raising EOFError, which neither helper catches).
    Each rejected answer is one "Invalid Input — please try again." message,
    so `rejected` is also the number of times that message is printed. */
module Prompt {

  datatype Option<T> = None | Some(value: T)

  // ---------- integers ----------

  /** An answer to an integer prompt is accepted when int() parsed it and the
      value is one of the allowed ones. */
  predicate AcceptsInt(entry: Option<int>, allowed: seq<int>)
  {
    entry.Some? && entry.value in allowed
  }

  /** `ask_choice_int`: each entry is the result of int() on one line (None
      when int() raised ValueError). Returns the first accepted value and how
      many entries were rejected before it; None when the script ran out. */
  method AskChoiceInt(inputs: seq<Option<int>>, allowed: seq<int>) returns (answer: Option<int>, rejected: nat)
    ensures rejected <= |inputs|
    ensures forall j :: 0 <= j < rejected ==> !AcceptsInt(inputs[j], allowed)
    ensures answer.Some? ==> rejected < |inputs| && inputs[rejected] == answer && answer.value in allowed
    ensures answer.None? ==> rejected == |inputs|
  {
    rejected := 0;
    while rejected < |inputs|
      invariant rejected <= |inputs|
      invariant forall j :: 0 <= j < rejected ==> !AcceptsInt(inputs[j], allowed)
    {
      var entry := inputs[rejected];
      if entry.Some? && entry.value in allowed {
        return entry, rejected;
      }
      rejected := rejected + 1;
    }
    return None, rejected;
  }

  // ---------- strings ----------

  /** The characters Python's str.isspace() accepts (and str.strip() removes). */
  predicate IsSpace(c: char)
  {
    || c == ' ' || '\t' <= c <= '\r' || '\U{1C}' <= c <= '\U{1F}' || c == '\U{85}' || c == '\U{A0}'
    || c == '\U{1680}' || '\U{2000}' <= c <= '\U{200A}' || c == '\U{2028}' || c == '\U{2029}'
    || c == '\U{202F}' || c == '\U{205F}' || c == '\U{3000}'
  }

  predicate AllSpace(s: string)
  {
    forall i :: 0 <= i < |s| ==> IsSpace(s[i])
  }

  predicate IsUpper(c: char)
  {
    'A' <= c <= 'Z'
  }

  function LowerChar(c: char): (l: char)
    ensures !IsUpper(l)
    ensures IsUpper(c) || l == c
  {
    if IsUpper(c) then (c as int + 32) as char else c
  }

  /** `s.lower()`, on the ASCII letters: the result has the same length, no
      upper-case letter is left in it, each upper-case letter becomes its
      lower-case partner, and every other character stays where it was. */
  function Lower(s: string): (r: string)
    ensures |r| == |s|
    ensures forall i :: 0 <= i < |r| ==> !IsUpper(r[i])
    ensures forall i :: 0 <= i < |s| && !IsUpper(s[i]) ==> r[i] == s[i]
    ensures forall i :: 0 <= i < |s| && IsUpper(s[i]) ==>
      'a' <= r[i] <= 'z' && r[i] as int - s[i] as int == 'a' as int - 'A' as int
  {
    seq(|s|, i requires 0 <= i < |s| => LowerChar(s[i]))
  }

  /** Lowering keeps whitespace and non-whitespace apart. */
  lemma LowerKeepsSpace(c: char)
    ensures IsSpace(LowerChar(c)) <==> IsSpace(c)
  {
  }

  /** Lowering a string of whitespace leaves whitespace. */
  lemma LowerAllSpace(s: string)
    requires AllSpace(s)
    ensures AllSpace(Lower(s))
  {
    forall i | 0 <= i < |s|
      ensures IsSpace(Lower(s)[i])
    {
      LowerKeepsSpace(s[i]);
    }
  }

  /** How many whitespace characters `s` starts with. */
  function LeadCount(s: string): (k: nat)
    ensures k <= |s|
  {
    if s != [] && IsSpace(s[0]) then 1 + LeadCount(s[1..]) else 0
  }

  /** How many whitespace characters `s` ends with. */
  function TrailCount(s: string): (k: nat)
    ensures k <= |s|
    decreases |s|
  {
    if s != [] && IsSpace(s[|s| - 1]) then 1 + TrailCount(s[..|s| - 1]) else 0
  }

  /** The leading count covers exactly the leading run of whitespace: all of
      it is whitespace, and the character after it (if any) is not. */
  lemma {:induction false} LeadCountRun(s: string)
    ensures AllSpace(s[..LeadCount(s)])
    ensures LeadCount(s) == |s| || !IsSpace(s[LeadCount(s)])
    decreases |s|
  {
    if s != [] && IsSpace(s[0]) {
      var k := LeadCount(s);
      LeadCountRun(s[1..]);
      assert s[..k] == [s[0]] + s[1..][..k - 1];
    }
  }

  /** Whitespace followed by one more whitespace character is whitespace. */
  lemma AllSpaceSnoc(u: string, c: char)
    requires AllSpace(u) && IsSpace(c)
    ensures AllSpace(u + [c])
  {
    forall i | 0 <= i < |u| + 1
      ensures IsSpace((u + [c])[i])
    {
      if i < |u| {
        assert (u + [c])[i] == u[i];
      }
    }
  }

  /** The trailing count covers exactly the trailing run of whitespace. */
  lemma {:induction false} TrailCountRun(s: string)
    ensures AllSpace(s[|s| - TrailCount(s)..])
    ensures TrailCount(s) == |s| || !IsSpace(s[|s| - TrailCount(s) - 1])
    decreases |s|
  {
    if s != [] && IsSpace(s[|s| - 1]) {
      var init := s[..|s| - 1];
      var k := TrailCount(s);
      assert k - 1 == TrailCount(init);
      TrailCountRun(init);
      var tail := init[|init| - (k - 1)..];
      assert s[|s| - k..] == tail + [s[|s| - 1]];
      AllSpaceSnoc(tail, s[|s| - 1]);
      if k < |s| {
        assert s[|s| - k - 1] == init[|init| - (k - 1) - 1];
      }
    } else {
      assert TrailCount(s) == 0;
      assert s[|s|..] == [];
    }
  }

  /** Removes leading whitespace. */
  function StripLeft(s: string): string
  {
    s[LeadCount(s)..]
  }

  /** Removes trailing whitespace. */
  function StripRight(s: string): string
  {
    s[..|s| - TrailCount(s)]
  }

  /** `s.strip()` */
  function Strip(s: string): string
  {
    StripRight(StripLeft(s))
  }

  /** `input(prompt).lower().strip()`, the form every answer is compared in. */
  function Normalize(s: string): string
  {
    Strip(Lower(s))
  }

  /** `[a.lower() for a in allowed]` */
  function LowerAll(allowed: seq<string>): (r: seq<string>)
    ensures |r| == |allowed| && forall i :: 0 <= i < |r| ==> r[i] == Lower(allowed[i])
  {
    if allowed == [] then [] else [Lower(allowed[0])] + LowerAll(allowed[1..])
  }

  /** `ask_choice_str`: each entry is one raw line. Returns the first line
      whose lowered and stripped form is in the lowered allowed list — in that
      form — and how many lines were rejected before it; None when the script
      ran out. */
  method AskChoiceStr(inputs: seq<string>, allowed: seq<string>) returns (answer: Option<string>, rejected: nat)
    ensures rejected <= |inputs|
    ensures forall j :: 0 <= j < rejected ==> Normalize(inputs[j]) !in LowerAll(allowed)
    ensures answer.Some? ==>
      rejected < |inputs| && answer.value == Normalize(inputs[rejected]) && answer.value in LowerAll(allowed)
    ensures answer.None? ==> rejected == |inputs|
  {
    var allowedLower := LowerAll(allowed);
    rejected := 0;
    while rejected < |inputs|
      invariant rejected <= |inputs|
      invariant forall j :: 0 <= j < rejected ==> Normalize(inputs[j]) !in allowedLower
    {
      var userInput := Normalize(inputs[rejected]);
      if userInput in allowedLower {
        return Some(userInput), rejected;
      }
      rejected := rejected + 1;
    }
    return None, rejected;
  }

  // ---------- properties of the normal form ----------

  /** Lowering a slice is slicing the lowered string. */
  lemma LowerSlice(s: string, i: int, j: int)
    requires 0 <= i <= j <= |s|
    ensures Lower(s[i..j]) == Lower(s)[i..j]
  {
  }

  /** Whether a string is free of whitespace at both ends. */
  predicate Trimmed(s: string)
  {
    s == [] || (!IsSpace(s[0]) && !IsSpace(s[|s| - 1]))
  }

  /** strip() leaves the string free of whitespace at both ends. */
  lemma StripIsTrimmed(s: string)
    ensures Trimmed(Strip(s))
  {
    var i := LeadCount(s);
    var l := s[i..];
    var k := |l| - TrailCount(l);
    LeadCountRun(s);
    TrailCountRun(l);
    var r := l[..k];
    if r != [] {
      assert r[0] == l[0] == s[i];
      assert r[|r| - 1] == l[k - 1];
    }
  }

  /** strip() keeps a contiguous piece of the string whose cut-off ends are
      all whitespace. */
  lemma StripPiece(s: string)
    ensures exists i, j :: 0 <= i <= j <= |s| && Strip(s) == s[i..j] && AllSpace(s[..i]) && AllSpace(s[j..])
  {
    var i := LeadCount(s);
    var l := s[i..];
    var k := |l| - TrailCount(l);
    LeadCountRun(s);
    TrailCountRun(l);
    assert Strip(s) == l[..k] == s[i..i + k];
    assert s[i + k..] == l[k..];
  }

  /** A string that is already free of whitespace at both ends is left alone by strip(). */
  lemma StripTrimmed(s: string)
    requires Trimmed(s)
    ensures Strip(s) == s
  {
    if s != [] {
      assert LeadCount(s) == 0;
      assert TrailCount(s) == 0;
    }
  }

  /** Whitespace and non-whitespace sit at the same places in `s` and
      `Lower(s)`, so both strip the same number of characters at the front... */
  lemma {:induction false} LowerLeadCount(s: string)
    ensures LeadCount(Lower(s)) == LeadCount(s)
    decreases |s|
  {
    if s != [] {
      var l := Lower(s);
      LowerSlice(s, 1, |s|);
      assert l[1..] == Lower(s[1..]) by { assert s[1..|s|] == s[1..]; }
      LowerLeadCount(s[1..]);
      LowerKeepsSpace(s[0]);
    }
  }

  /** ... and at the back. */
  lemma {:induction false} LowerTrailCount(s: string)
    ensures TrailCount(Lower(s)) == TrailCount(s)
    decreases |s|
  {
    if s != [] {
      var l := Lower(s);
      LowerSlice(s, 0, |s| - 1);
      LowerTrailCount(s[..|s| - 1]);
      LowerKeepsSpace(s[|s| - 1]);
      assert l[..|l| - 1] == Lower(s[..|s| - 1]);
    }
  }

  /** Lowering and stripping commute: `s.lower().strip() == s.strip().lower()`. */
  lemma LowerStripCommute(s: string)
    ensures Normalize(s) == Lower(Strip(s))
  {
    StripLeftLower(s);
    StripRightLower(StripLeft(s));
  }

  lemma StripLeftLower(s: string)
    ensures StripLeft(Lower(s)) == Lower(StripLeft(s))
  {
    var i := LeadCount(s);
    var L := Lower(s);
    LowerLeadCount(s);
    assert LeadCount(L) == i;
    assert StripLeft(L) == L[i..];
    LowerSlice(s, i, |s|);
    assert L[i..] == Lower(s[i..]);
    assert StripLeft(s) == s[i..];
  }

  lemma StripRightLower(s: string)
    ensures StripRight(Lower(s)) == Lower(StripRight(s))
  {
    var j := TrailCount(s);
    LowerTrailCount(s);
    LowerSlice(s, 0, |s| - j);
  }

  /** Normalizing twice is normalizing once; in particular the extra
      `.lower()` main applies to an accepted answer changes nothing. */
  lemma NormalizeIdempotent(s: string)
    ensures Normalize(Normalize(s)) == Normalize(s)
    ensures Lower(Normalize(s)) == Normalize(s)
  {
    var n := Normalize(s);
    LowerStripCommute(s);
    LowerLowered(Strip(s));
    StripIsTrimmed(Lower(s));
    StripTrimmed(n);
  }

  /** Lowering is idempotent. */
  lemma LowerLowered(s: string)
    ensures Lower(Lower(s)) == Lower(s)
  {
  }

  /** Case does not matter: two answers that agree letter for letter up to
      case are treated alike ("PASTEL" and "pastel", say). */
  lemma CaseInsensitive(a: string, b: string)
    requires |a| == |b| && forall i :: 0 <= i < |a| ==> LowerChar(a[i]) == LowerChar(b[i])
    ensures Normalize(a) == Normalize(b)
  {
    assert Lower(a) == Lower(b);
  }

  /** Leading whitespace adds to the leading count. */
  lemma {:induction false} LeadOverSpace(pre: string, t: string)
    requires AllSpace(pre)
    ensures LeadCount(pre + t) == |pre| + LeadCount(t)
    decreases |pre|
  {
    if pre != [] {
      assert (pre + t)[0] == pre[0] && IsSpace(pre[0]);
      assert (pre + t)[1..] == pre[1..] + t;
      LeadOverSpace(pre[1..], t);
    } else {
      assert pre + t == t;
    }
  }

  /** Once a non-space character is met, what follows does not change the leading count. */
  lemma {:induction false} LeadStopsEarly(t: string, post: string)
    requires LeadCount(t) < |t|
    ensures LeadCount(t + post) == LeadCount(t)
    decreases |t|
  {
    if IsSpace(t[0]) {
      assert (t + post)[1..] == t[1..] + post;
      LeadStopsEarly(t[1..], post);
    }
  }

  /** Trailing whitespace adds to the trailing count. */
  lemma {:induction false} TrailOverSpace(t: string, post: string)
    requires AllSpace(post)
    ensures TrailCount(t + post) == |post| + TrailCount(t)
    decreases |post|
  {
    if post != [] {
      var init := post[..|post| - 1];
      assert (t + post)[|t + post| - 1] == post[|post| - 1] && IsSpace(post[|post| - 1]);
      assert (t + post)[..|t + post| - 1] == t + init;
      TrailOverSpace(t, init);
    } else {
      assert t + post == t;
    }
  }

  /** A string of whitespace only strips to nothing. */
  lemma StripAllSpace(s: string)
    requires AllSpace(s)
    ensures Strip(s) == []
  {
    LeadOverSpace(s, []);
    assert s + [] == s;
  }

  /** Lowering works character by character, so it distributes over concatenation. */
  lemma LowerConcat(a: string, b: string)
    ensures Lower(a + b) == Lower(a) + Lower(b)
  {
    var l, r := Lower(a + b), Lower(a) + Lower(b);
    assert forall i :: 0 <= i < |l| ==> l[i] == r[i] by {
      forall i | 0 <= i < |l|
        ensures l[i] == r[i]
      {
        if i < |a| {
          assert (a + b)[i] == a[i];
        } else {
          assert (a + b)[i] == b[i - |a|];
        }
      }
    }
  }

  /** Whitespace joined to whitespace is whitespace. */
  lemma AllSpaceConcat(u: string, v: string)
    requires AllSpace(u) && AllSpace(v)
    ensures AllSpace(u + v)
  {
    forall i | 0 <= i < |u + v|
      ensures IsSpace((u + v)[i])
    {
      if i < |u| {
        assert (u + v)[i] == u[i];
      } else {
        assert (u + v)[i] == v[i - |u|];
      }
    }
  }

  /** strip() ignores padding round a blank answer: both strip to nothing. */
  lemma StripPaddedBlank(a: string, t: string, b: string)
    requires AllSpace(a) && AllSpace(b) && LeadCount(t) == |t|
    ensures Strip(a + t + b) == Strip(t) == []
  {
    assert AllSpace(t) by { LeadCountRun(t); assert t[..|t|] == t; }
    AllSpaceConcat(a, t);
    AllSpaceConcat(a + t, b);
    StripAllSpace(a + t + b);
    StripAllSpace(t);
  }

  /** lstrip() removes front padding along with the rest of the leading run. */
  lemma StripLeftOverSpace(a: string, y: string)
    requires AllSpace(a)
    ensures StripLeft(a + y) == StripLeft(y)
  {
    LeadOverSpace(a, y);
    assert (a + y)[|a| + LeadCount(y)..] == y[LeadCount(y)..];
  }

  /** lstrip() of an answer with a non-space character keeps what follows it. */
  lemma StripLeftKeepsTail(t: string, b: string)
    requires LeadCount(t) < |t|
    ensures StripLeft(t + b) == StripLeft(t) + b
  {
    var i := LeadCount(t);
    LeadStopsEarly(t, b);
    DropConcat(t, b, i);
  }

  /** Dropping a prefix of the first part of a concatenation. */
  lemma DropConcat(t: string, b: string, i: nat)
    requires i <= |t|
    ensures (t + b)[i..] == t[i..] + b
  {
  }

  /** Front padding is all lstrip() removes from an answer with a non-space
      character, and what follows that character is kept. */
  lemma StripLeftPadded(a: string, t: string, b: string)
    requires AllSpace(a) && LeadCount(t) < |t|
    ensures StripLeft(a + t + b) == StripLeft(t) + b
  {
    assert a + t + b == a + (t + b);
    assert StripLeft(a + (t + b)) == StripLeft(t + b) by {
      StripLeftOverSpace(a, t + b);
    }
    assert StripLeft(t + b) == StripLeft(t) + b by {
      StripLeftKeepsTail(t, b);
    }
  }

  /** Back padding is removed along with the rest of the trailing run. */
  lemma StripRightPadded(u: string, b: string)
    requires AllSpace(b)
    ensures StripRight(u + b) == StripRight(u)
  {
    TrailOverSpace(u, b);
    var k := |u| - TrailCount(u);
    assert (u + b)[..k] == u[..k];
  }

  /** strip() ignores padding round an answer with a non-space character. */
  lemma StripPaddedWord(a: string, t: string, b: string)
    requires AllSpace(a) && AllSpace(b) && LeadCount(t) < |t|
    ensures Strip(a + t + b) == Strip(t)
  {
    StripLeftPadded(a, t, b);
    StripRightPadded(StripLeft(t), b);
  }

  /** strip() ignores whitespace added at either end. */
  lemma StripPadded(a: string, t: string, b: string)
    requires AllSpace(a) && AllSpace(b)
    ensures Strip(a + t + b) == Strip(t)
  {
    if LeadCount(t) == |t| {
      StripPaddedBlank(a, t, b);
    } else {
      StripPaddedWord(a, t, b);
    }
  }

  /** Surrounding whitespace does not matter: padding an answer with spaces,
      tabs or newlines on either side does not change its normal form. */
  lemma PaddingIgnored(pre: string, s: string, post: string)
    requires AllSpace(pre) && AllSpace(post)
    ensures Normalize(pre + s + post) == Normalize(s)
  {
    LowerConcat(pre, s);
    LowerConcat(pre + s, post);
    LowerAllSpace(pre);
    LowerAllSpace(post);
    StripPadded(Lower(pre), Lower(s), Lower(post));
  }

  /** An answer whose lowered form has no whitespace at either end
      normalizes to that lowered form. */
  lemma NormalizeUnpadded(a: string, w: string)
    requires Lower(a) == w && Trimmed(w)
    ensures Normalize(a) == w
  {
    StripTrimmed(w);
  }

  /** An answer followed by whitespace normalizes like the bare answer. */
  lemma NormalizeTrailing(a: string, pad: string, w: string)
    requires AllSpace(pad) && Lower(a) == w && Trimmed(w)
    ensures Normalize(a + pad) == w
  {
    var x := a + pad;
    assert [] + a + pad == x;
    PaddingIgnored([], a, pad);
    assert Normalize(x) == Normalize(a);
    NormalizeUnpadded(a, w);
  }

  /** "PASTEL" lowers to "pastel". */
  lemma PastelLower()
    ensures Lower("PASTEL") == "pastel"
  {
  }

  /** With the theme prompt's list, "PASTEL " is accepted as "pastel". */
  lemma PastelExample()
    ensures Normalize("PASTEL ") == "pastel"
    ensures "pastel" in LowerAll(["pastel", "primary"])
  {
    PastelLower();
    assert "PASTEL " == "PASTEL" + " ";
    NormalizeTrailing("PASTEL", " ", "pastel");
    assert LowerAll(["pastel", "primary"])[0] == "pastel";
  }
}
