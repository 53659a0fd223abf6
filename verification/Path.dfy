/** The shell's path resolver (apps/shell/src/main.rs). */
module Paths {
  newtype Byte = x: int | 0 <= x < 256

  const SLASH: Byte := 47
  const DOT: Byte := 46
  const MAX_PATH: nat := 256

  // ---- What a path means ------------------------------------------------------------------------

  function FirstSlash(s: seq<Byte>): (i: nat)
    ensures i <= |s| && (i < |s| ==> s[i] == SLASH) && forall j | 0 <= j < i :: s[j] != SLASH
  {
    if s == [] || s[0] == SLASH then 0 else 1 + FirstSlash(s[1..])
  }

  /** The pieces between the slashes. */
  function Split(s: seq<Byte>): seq<seq<Byte>>
    decreases |s|
  {
    var i := FirstSlash(s);
    if i == |s| then [s] else [s[..i]] + Split(s[i + 1..])
  }

  /** One piece: nothing and `.` stay, `..` goes up, anything else goes down. */
  function Walk(stack: seq<seq<Byte>>, comp: seq<Byte>): seq<seq<Byte>> {
    if comp == [] || comp == [DOT] then stack
    else if comp == [DOT, DOT] then (if stack == [] then [] else stack[..|stack| - 1])
    else stack + [comp]
  }

  function WalkAll(stack: seq<seq<Byte>>, comps: seq<seq<Byte>>): seq<seq<Byte>>
    decreases |comps|
  {
    if comps == [] then stack else WalkAll(Walk(stack, comps[0]), comps[1..])
  }

  function Joined(stack: seq<seq<Byte>>): seq<Byte> {
    if stack == [] then [] else [SLASH] + stack[0] + Joined(stack[1..])
  }

  /** The absolute path of a stack of names. */
  function Render(stack: seq<seq<Byte>>): seq<Byte> {
    if stack == [] then [SLASH] else Joined(stack)
  }

  function Truncate(s: seq<Byte>): (t: seq<Byte>)
    ensures |t| <= MAX_PATH && t <= s
  {
    if |s| <= MAX_PATH then s else s[..MAX_PATH]
  }

  predicate IsAbsolute(s: seq<Byte>) {
    s != [] && s[0] == SLASH
  }

  /** The input as an absolute path that may still contain `.` and `..`. */
  function Anchored(cwd: seq<Byte>, input: seq<Byte>): seq<Byte> {
    Truncate(if IsAbsolute(input) then input else cwd + [SLASH] + input)
  }

  function Resolve(cwd: seq<Byte>, input: seq<Byte>): seq<Byte> {
    Render(WalkAll([], Split(Anchored(cwd, input))))
  }

  // ---- Names and stacks -------------------------------------------------------------------------

  /** A name that can be on the stack. */
  ghost predicate Proper(c: seq<Byte>) {
    c != [] && c != [DOT] && c != [DOT, DOT] && SLASH !in c
  }

  ghost predicate AllProper(stack: seq<seq<Byte>>) {
    forall i | 0 <= i < |stack| :: Proper(stack[i])
  }

  lemma {:induction false} JoinedSnoc(stack: seq<seq<Byte>>, c: seq<Byte>)
    ensures Joined(stack + [c]) == Joined(stack) + [SLASH] + c
  {
    if stack == [] {
      assert Joined([c]) == [SLASH] + c + Joined([]);
    } else {
      assert (stack + [c])[1..] == stack[1..] + [c];
      JoinedSnoc(stack[1..], c);
    }
  }

  lemma {:induction false} SplitHasNoSlash(s: seq<Byte>)
    ensures forall i | 0 <= i < |Split(s)| :: SLASH !in Split(s)[i]
    decreases |s|
  {
    if FirstSlash(s) < |s| { SplitHasNoSlash(s[FirstSlash(s) + 1..]); }
  }

  lemma {:induction false} WalkAllProper(stack: seq<seq<Byte>>, comps: seq<seq<Byte>>)
    requires AllProper(stack) && forall i | 0 <= i < |comps| :: SLASH !in comps[i]
    ensures AllProper(WalkAll(stack, comps))
    decreases |comps|
  {
    if comps == [] {
    } else {
      WalkAllProper(Walk(stack, comps[0]), comps[1..]);
    }
  }

  lemma FirstSlashAfter(c: seq<Byte>, rest: seq<Byte>)
    requires SLASH !in c && (rest == [] || rest[0] == SLASH)
    ensures FirstSlash(c + rest) == |c|
  {
    var s := c + rest;
    assert forall j | 0 <= j < |c| :: s[j] == c[j];
    assert rest != [] ==> s[|c|] == SLASH;
  }

  /** Splitting a rendered stack gives the names back, after the empty piece before the first slash. */
  lemma {:induction false} SplitJoined(stack: seq<seq<Byte>>)
    requires AllProper(stack) && stack != []
    ensures Split(stack[0] + Joined(stack[1..])) == stack
    decreases |stack|
  {
    var rest := Joined(stack[1..]);
    FirstSlashAfter(stack[0], rest);
    var s := stack[0] + rest;
    if |stack| > 1 {
      assert s[|stack[0]| + 1..] == stack[1..][0] + Joined(stack[1..][1..]);
      SplitJoined(stack[1..]);
      assert s[..|stack[0]|] == stack[0];
    } else {
      assert s == stack[0];
    }
  }

  lemma {:induction false} WalkAllPushes(stack: seq<seq<Byte>>, comps: seq<seq<Byte>>)
    requires AllProper(comps)
    ensures WalkAll(stack, comps) == stack + comps
    decreases |comps|
  {
    if comps == [] {
    } else {
      WalkAllPushes(stack + [comps[0]], comps[1..]);
      assert stack + [comps[0]] + comps[1..] == stack + comps;
    }
  }

  /** Reading a rendered stack gives the stack back. */
  lemma RenderRoundTrip(stack: seq<seq<Byte>>)
    requires AllProper(stack)
    ensures WalkAll([], Split(Render(stack))) == stack
  {
    var s := Render(stack);
    assert FirstSlash(s) == 0;
    if stack == [] {
      assert s[1..] == [] && Split([]) == [[]];
      assert Split(s) == [[], []];
      assert WalkAll([], [[], []]) == WalkAll([], [[], []][1..]);
    } else {
      SplitJoined(stack);
      assert s[1..] == stack[0] + Joined(stack[1..]);
      assert Split(s) == [[]] + stack;
      assert ([[]] + stack)[1..] == stack;
      WalkAllPushes([], stack);
    }
  }

  // ---- The result fits --------------------------------------------------------------------------

  lemma WalkLength(stack: seq<seq<Byte>>, c: seq<Byte>)
    ensures |Joined(Walk(stack, c))| <= |Joined(stack)| + 1 + |c|
    ensures c == [] ==> Walk(stack, c) == stack
  {
    if c == [DOT, DOT] && stack != [] {
      JoinedSnoc(stack[..|stack| - 1], stack[|stack| - 1]);
      assert stack[..|stack| - 1] + [stack[|stack| - 1]] == stack;
    } else if Walk(stack, c) == stack + [c] {
      JoinedSnoc(stack, c);
    }
  }

  /** The pieces of a path need no more room than the path itself. */
  lemma {:induction false} WalkAllLength(stack: seq<seq<Byte>>, s: seq<Byte>)
    ensures |Joined(WalkAll(stack, Split(s)))| <= |Joined(stack)| + 1 + |s|
    decreases |s|
  {
    var i := FirstSlash(s);
    if i == |s| {
      WalkLength(stack, s);
      assert WalkAll(stack, [s]) == WalkAll(Walk(stack, s), [s][1..]);
    } else {
      WalkLength(stack, s[..i]);
      WalkAllLength(Walk(stack, s[..i]), s[i + 1..]);
      assert ([s[..i]] + Split(s[i + 1..]))[1..] == Split(s[i + 1..]);
    }
  }

  lemma ResolveLength(s: seq<Byte>)
    requires IsAbsolute(s)
    ensures |Render(WalkAll([], Split(s)))| <= |s|
  {
    assert FirstSlash(s) == 0;
    assert Split(s) == [s[..0]] + Split(s[1..]);
    assert ([s[..0]] + Split(s[1..]))[1..] == Split(s[1..]);
    WalkAllLength([], s[1..]);
  }

  /** A resolved path is absolute, fits, has no empty or dot pieces, and resolves to itself from anywhere. */
  lemma ResolveIdempotent(cwd: seq<Byte>, input: seq<Byte>, elsewhere: seq<Byte>)
    requires cwd == [] || IsAbsolute(cwd)
    ensures IsAbsolute(Resolve(cwd, input)) && |Resolve(cwd, input)| <= MAX_PATH
    ensures Resolve(elsewhere, Resolve(cwd, input)) == Resolve(cwd, input)
  {
    var s := Anchored(cwd, input);
    assert IsAbsolute(s);
    var stack := WalkAll([], Split(s));
    SplitHasNoSlash(s);
    WalkAllProper([], Split(s));
    ResolveLength(s);
    RenderRoundTrip(stack);
  }

  // ---- Piece by piece ---------------------------------------------------------------------------

  lemma {:induction false} SplitSnoc(s: seq<Byte>, c: seq<Byte>)
    requires SLASH !in c
    ensures Split(s + [SLASH] + c) == Split(s) + [c]
    decreases |s|
  {
    var t := s + [SLASH] + c;
    var i := FirstSlash(s);
    assert t[..i] == s[..i];
    SlashAt(t, i);
    if i == |s| {
      assert t[i + 1..] == c && s[..i] == s && c[..|c|] == c;
      SlashAt(c, |c|);
    } else {
      assert t[i + 1..] == s[i + 1..] + [SLASH] + c;
      SplitSnoc(s[i + 1..], c);
    }
  }

  lemma SlashAt(s: seq<Byte>, i: nat)
    requires i <= |s| && (i < |s| ==> s[i] == SLASH) && SLASH !in s[..i]
    ensures FirstSlash(s) == i
  {
    hide FirstSlash;
    assert forall j | 0 <= j < i :: s[j] == s[..i][j];
  }

  lemma {:induction false} WalkAllSnoc(stack: seq<seq<Byte>>, comps: seq<seq<Byte>>, c: seq<Byte>)
    ensures WalkAll(stack, comps + [c]) == Walk(WalkAll(stack, comps), c)
    decreases |comps|
  {
    if comps == [] {
      assert WalkAll(stack, [c]) == WalkAll(Walk(stack, c), [c][1..]);
    } else {
      assert (comps + [c])[1..] == comps[1..] + [c];
      WalkAllSnoc(Walk(stack, comps[0]), comps[1..], c);
    }
  }

  /** The entry `name` of the directory with the absolute path `dir`. */
  function Entry(dir: seq<Byte>, name: seq<Byte>): seq<Byte> {
    if dir == [SLASH] then dir + name else dir + [SLASH] + name
  }

  /** `to` is where piece `c` leads from `from`: nowhere, to the directory above, or to an entry. */
  ghost predicate Leads(from: seq<Byte>, c: seq<Byte>, to: seq<Byte>) {
    && (c == [] || c == [DOT] ==> to == from)
    && (c == [DOT, DOT] && from == [SLASH] ==> to == from)
    && (c == [DOT, DOT] && from != [SLASH] ==> exists name :: Proper(name) && from == Entry(to, name))
    && (Proper(c) ==> to == Entry(from, c))
  }

  lemma EntryOf(stack: seq<seq<Byte>>, name: seq<Byte>)
    requires AllProper(stack)
    ensures Render(stack + [name]) == Entry(Render(stack), name)
  {
    hide Joined, AllProper;
    RenderRoot(stack);
    JoinedSnoc(stack, name);
    JoinedRoot(stack);
  }

  lemma JoinedRoot(stack: seq<seq<Byte>>)
    requires AllProper(stack)
    ensures Joined([]) == [] && (stack != [] ==> Joined(stack) != [SLASH])
  {
  }

  lemma WalkLeads(stack: seq<seq<Byte>>, c: seq<Byte>)
    requires AllProper(stack) && SLASH !in c
    ensures Leads(Render(stack), c, Render(Walk(stack, c)))
  {
    hide Joined, Entry, Render;
    RenderRoot(stack);
    if c == [DOT, DOT] && stack != [] {
      var up, name := stack[..|stack| - 1], stack[|stack| - 1];
      assert up + [name] == stack && Proper(name);
      EntryOf(up, name);
    } else if c == [DOT, DOT] {
      assert Render(stack) == [SLASH];
    } else if Proper(c) {
      EntryOf(stack, c);
    }
  }

  /** A further piece of the input leads on from where the input led, as long as all of it fits the buffer. */
  lemma PieceLeads(cwd: seq<Byte>, input: seq<Byte>, c: seq<Byte>)
    requires input != [] && SLASH !in c
    requires (if IsAbsolute(input) then 0 else |cwd| + 1) + |input| + 1 + |c| <= MAX_PATH
    ensures Leads(Resolve(cwd, input), c, Resolve(cwd, input + [SLASH] + c))
  {
    var s := Anchored(cwd, input);
    assert Anchored(cwd, input + [SLASH] + c) == s + [SLASH] + c;
    SplitSnoc(s, c);
    WalkAllSnoc([], Split(s), c);
    SplitHasNoSlash(s);
    WalkAllProper([], Split(s));
    WalkLeads(WalkAll([], Split(s)), c);
  }

  /**
   Where the steps start: the root is the root, an absolute path does not depend on the directory, a
   relative one goes on from it, and no byte after the first 256 counts.
   */
  lemma ResolveStarts(cwd: seq<Byte>, input: seq<Byte>, elsewhere: seq<Byte>)
    requires IsAbsolute(cwd)
    ensures Resolve(elsewhere, [SLASH]) == [SLASH]
    ensures IsAbsolute(input) ==> Resolve(cwd, input) == Resolve(elsewhere, input)
    ensures !IsAbsolute(input) ==> Resolve(cwd, input) == Resolve(elsewhere, cwd + [SLASH] + input)
    ensures IsAbsolute(input) && |input| == MAX_PATH ==>
            forall rest :: Resolve(cwd, input + rest) == Resolve(cwd, input)
  {
    RenderRoundTrip([]);
    forall rest | IsAbsolute(input) && |input| == MAX_PATH
      ensures Resolve(cwd, input + rest) == Resolve(cwd, input)
    {
      assert Truncate(input + rest) == input;
    }
  }

  // ---- Text -------------------------------------------------------------------------------------

  predicate Continues(b: Byte) {
    0x80 <= b <= 0xBF
  }

  /** Length of the UTF-8 character that `s` starts with (table 3-7 of the Unicode standard), 0 if there is none. */
  function CharLength(s: seq<Byte>): (n: nat)
    ensures n <= |s|
  {
    if s == [] then 0
    else if s[0] < 0x80 then 1
    else if 0xC2 <= s[0] <= 0xDF then (if |s| >= 2 && Continues(s[1]) then 2 else 0)
    else if 0xE0 <= s[0] <= 0xEF then
      var lo, hi := (if s[0] == 0xE0 then 0xA0 else 0x80), (if s[0] == 0xED then 0x9F else 0xBF);
      if |s| >= 3 && lo <= s[1] <= hi && Continues(s[2]) then 3 else 0
    else if 0xF0 <= s[0] <= 0xF4 then
      var lo, hi := (if s[0] == 0xF0 then 0x90 else 0x80), (if s[0] == 0xF4 then 0x8F else 0xBF);
      if |s| >= 4 && lo <= s[1] <= hi && Continues(s[2]) && Continues(s[3]) then 4 else 0
    else 0
  }

  predicate Utf8(s: seq<Byte>)
    decreases |s|
  {
    s == [] || (CharLength(s) > 0 && Utf8(s[CharLength(s)..]))
  }

  /** A character is recognised by its first bytes alone, and no slash is inside it. */
  lemma CharPrefix(s: seq<Byte>, t: seq<Byte>)
    requires CharLength(s) > 0 && CharLength(s) <= |t| && t[..CharLength(s)] == s[..CharLength(s)]
    ensures CharLength(t) == CharLength(s)
    ensures forall i | 0 < i < CharLength(s) :: s[i] != SLASH
    ensures s[0] == SLASH ==> CharLength(s) == 1
  {
    assert forall i | 0 <= i < CharLength(s) :: t[i] == t[..CharLength(s)][i] == s[..CharLength(s)][i] == s[i];
  }

  lemma {:induction false} TextAppend(a: seq<Byte>, b: seq<Byte>)
    requires Utf8(a) && Utf8(b)
    ensures Utf8(a + b)
    decreases |a|
  {
    hide CharLength;
    if a == [] {
      assert a + b == b;
    } else {
      var n := CharLength(a);
      assert (a + b)[..n] == a[..n] && (a + b)[n..] == a[n..] + b;
      CharPrefix(a, a + b);
      TextAppend(a[n..], b);
    }
  }

  /** A character followed by text is text. */
  lemma TextOfChar(s: seq<Byte>, i: nat)
    requires 0 < CharLength(s) <= i <= |s| && Utf8(s[CharLength(s)..][..i - CharLength(s)])
    ensures Utf8(s[..i])
  {
    hide CharLength;
    var n := CharLength(s);
    assert s[..i][..n] == s[..n] && s[..i][n..] == s[n..][..i - n];
    CharPrefix(s, s[..i]);
  }

  /** Cutting text at a slash leaves text on both sides. */
  lemma {:induction false} TextCut(s: seq<Byte>, i: nat)
    requires Utf8(s) && i < |s| && s[i] == SLASH
    ensures Utf8(s[..i]) && Utf8(s[i + 1..])
    decreases |s|
  {
    var n := CharLength(s);
    CharPrefix(s, s);
    if i == 0 {
      assert s[..0] == [];
    } else {
      assert i >= n && s[n..][i - n] == s[i];
      TextCut(s[n..], i - n);
      assert s[n..][i - n + 1..] == s[i + 1..];
      TextOfChar(s, i);
    }
  }

  ghost predicate AllText(comps: seq<seq<Byte>>) {
    forall i | 0 <= i < |comps| :: Utf8(comps[i])
  }

  lemma {:induction false} SplitText(s: seq<Byte>)
    requires Utf8(s)
    ensures AllText(Split(s))
    decreases |s|
  {
    var i := FirstSlash(s);
    if i == |s| {
    } else {
      TextCut(s, i);
      SplitText(s[i + 1..]);
    }
  }

  lemma {:induction false} WalkAllText(stack: seq<seq<Byte>>, comps: seq<seq<Byte>>)
    requires AllText(stack) && AllText(comps)
    ensures AllText(WalkAll(stack, comps))
    decreases |comps|
  {
    if comps == [] {
    } else {
      WalkAllText(Walk(stack, comps[0]), comps[1..]);
    }
  }

  lemma {:induction false} JoinedText(stack: seq<seq<Byte>>)
    requires AllText(stack)
    ensures Utf8(Joined(stack)) && Utf8(Render(stack))
    decreases |stack|
  {
    assert Utf8([SLASH]) by { assert [SLASH][1..] == []; }
    if stack == [] {
    } else {
      JoinedText(stack[1..]);
      TextAppend([SLASH], stack[0]);
      TextAppend([SLASH] + stack[0], Joined(stack[1..]));
    }
  }

  /** What the caller is given: the resolved path if it is text, and the root otherwise. */
  function Text(path: seq<Byte>): seq<Byte> {
    if Utf8(path) then path else [SLASH]
  }

  /** The root is given instead of the resolved path only if the joined path was cut off at the end of the buffer. */
  lemma FallbackOnlyIfTruncated(cwd: seq<Byte>, input: seq<Byte>)
    requires Utf8(cwd) && Utf8(input) && (IsAbsolute(input) || |cwd| + 1 + |input| <= MAX_PATH) && |input| <= MAX_PATH
    ensures Text(Resolve(cwd, input)) == Resolve(cwd, input)
  {
    assert Utf8([SLASH]) by { assert [SLASH][1..] == []; }
    TextAppend(cwd, [SLASH]);
    TextAppend(cwd + [SLASH], input);
    SplitText(Anchored(cwd, input));
    WalkAllText([], Split(Anchored(cwd, input)));
    JoinedText(WalkAll([], Split(Anchored(cwd, input))));
  }

  /** And in any case what the caller is given resolves to itself. */
  lemma TextIdempotent(cwd: seq<Byte>, input: seq<Byte>, elsewhere: seq<Byte>)
    requires cwd == [] || IsAbsolute(cwd)
    ensures Text(Resolve(elsewhere, Text(Resolve(cwd, input)))) == Text(Resolve(cwd, input))
  {
    if Utf8(Resolve(cwd, input)) {
      ResolveIdempotent(cwd, input, elsewhere);
    } else {
      RenderRoundTrip([]);
      JoinedText([]);
      assert Resolve(elsewhere, [SLASH]) == [SLASH];
    }
  }

  // ---- The resolver -----------------------------------------------------------------------------

  /** Append as much of `s` as fits. */
  method Append(tmp: array<Byte>, tlen: nat, s: seq<Byte>, ghost sofar: seq<Byte>) returns (tlen': nat)
    requires tmp.Length == MAX_PATH && tlen <= MAX_PATH && tmp[..tlen] == Truncate(sofar)
    modifies tmp
    ensures tlen' <= MAX_PATH && tmp[..tlen'] == Truncate(sofar + s)
  {
    tlen' := tlen;
    assert sofar + s[..0] == sofar;
    for k := 0 to |s|
      invariant tlen' <= MAX_PATH && tmp[..tlen'] == Truncate(sofar + s[..k])
    {
      assert sofar + s[..k + 1] == sofar + s[..k] + [s[k]];
      if tlen' < MAX_PATH {
        tmp[tlen'] := s[k];
        tlen' := tlen' + 1;
      }
    }
    assert s[..|s|] == s;
  }

  /** The input as an absolute path, written into a buffer as far as it fits. */
  method Anchor(cwd: seq<Byte>, input: seq<Byte>) returns (tmp: array<Byte>, tlen: nat)
    ensures tmp.Length == MAX_PATH && tlen <= MAX_PATH && fresh(tmp) && tmp[..tlen] == Anchored(cwd, input)
  {
    tmp := new Byte[MAX_PATH](_ => 0);
    tlen := 0;
    assert tmp[..0] == Truncate([]);
    if !IsAbsolute(input) {
      tlen := Append(tmp, tlen, cwd, []);
      assert [] + cwd == cwd;
      tlen := Append(tmp, tlen, [SLASH], cwd);
      tlen := Append(tmp, tlen, input, cwd + [SLASH]);
    } else {
      tlen := Append(tmp, tlen, input, []);
      assert [] + input == input;
    }
  }

  /** Go down: append a slash, unless at the root, and the name. */
  method Push(buf: array<Byte>, olen: nat, comp: seq<Byte>, ghost stack: seq<seq<Byte>>) returns (olen': nat)
    requires buf.Length == MAX_PATH && 1 <= olen && olen + 1 + |comp| <= MAX_PATH + (if olen == 1 then 1 else 0)
    requires olen <= MAX_PATH && buf[..olen] == Render(stack) && (olen == 1 <==> stack == [])
    modifies buf
    ensures olen' <= MAX_PATH && buf[..olen'] == Render(stack + [comp])
  {
    JoinedSnoc(stack, comp);
    olen' := olen;
    if olen > 1 {
      buf[olen] := SLASH;
      olen' := olen + 1;
    }
    ghost var base := buf[..olen'];
    assert base == Joined(stack) + [SLASH];
    for k := 0 to |comp|
      invariant buf[..olen' + k] == base + comp[..k]
    {
      buf[olen' + k] := comp[k];
    }
    olen' := olen' + |comp|;
    assert comp[..|comp|] == comp;
  }

  /** Go up: drop the last name and the slash before it. */
  method Pop(buf: array<Byte>, olen: nat, ghost stack: seq<seq<Byte>>) returns (olen': nat)
    requires 1 <= olen <= buf.Length && buf[..olen] == Render(stack) && AllProper(stack)
    ensures 1 <= olen' <= olen && buf[..olen'] == Render(if stack == [] then [] else stack[..|stack| - 1])
  {
    RenderRoot(stack);
    if olen <= 1 { return olen; }
    ghost var last, up := stack[|stack| - 1], stack[..|stack| - 1];
    assert up + [last] == stack;
    JoinedSnoc(up, last);
    ghost var base := |Joined(up)|;
    assert buf[..olen] == Joined(up) + [SLASH] + last;
    assert Proper(last);
    assert buf[..olen][base] == SLASH;
    assert forall k | base + 1 <= k < olen :: buf[..olen][k] == last[k - base - 1] && buf[k] != SLASH;
    olen' := olen - 1;
    while olen' > 1 && buf[olen' - 1] != SLASH
      invariant base + 1 <= olen' <= olen - 1
    {
      olen' := olen' - 1;
    }
    if olen' > 1 { olen' := olen' - 1; }
    assert base > 0 ==> buf[..base] == buf[..olen][..base] == Joined(up);
    assert base == 0 ==> buf[..1] == buf[..olen][..1] == [SLASH];
    assert base == 0 <==> up == [];
  }

  lemma RenderRoot(stack: seq<seq<Byte>>)
    requires AllProper(stack)
    ensures IsAbsolute(Render(stack)) && (|Render(stack)| == 1 <==> stack == [])
  {
  }

  /** The pieces still to come, after the stack so far, make the result. */
  lemma NextPiece(stack: seq<seq<Byte>>, s: seq<Byte>)
    ensures var i := FirstSlash(s);
      WalkAll(stack, Split(s)) == if i == |s| then Walk(stack, s) else WalkAll(Walk(stack, s[..i]), Split(s[i + 1..]))
  {
  }

  /** Process one piece of the path in place. */
  method Descend(buf: array<Byte>, olen: nat, comp: seq<Byte>, ghost stack: seq<seq<Byte>>) returns (olen': nat)
    requires buf.Length == MAX_PATH && 1 <= olen <= MAX_PATH && buf[..olen] == Render(stack) && AllProper(stack) &&
             SLASH !in comp
    requires comp != [] ==> |Joined(stack)| + 1 + |comp| <= MAX_PATH
    modifies buf
    ensures 1 <= olen' <= MAX_PATH && buf[..olen'] == Render(Walk(stack, comp)) && AllProper(Walk(stack, comp))
  {
    RenderRoot(stack);
    if comp == [] || comp == [DOT] {
      olen' := olen;
    } else if comp == [DOT, DOT] {
      olen' := Pop(buf, olen, stack);
    } else {
      olen' := Push(buf, olen, comp, stack);
      RenderRoot(stack + [comp]);
    }
  }

  method NextSlash(tmp: array<Byte>, i: nat, tlen: nat) returns (j: nat)
    requires i <= tlen <= tmp.Length
    ensures i <= j <= tlen && (j < tlen ==> tmp[j] == SLASH) && forall k | i <= k < j :: tmp[k] != SLASH
  {
    j := i;
    while j < tlen && tmp[j] != SLASH
      invariant i <= j <= tlen && forall k | i <= k < j :: tmp[k] != SLASH
    {
      j := j + 1;
    }
  }

  /** The path up to `i` has led to `stack`. */
  ghost predicate Reached(s: seq<Byte>, i: nat, stack: seq<seq<Byte>>) {
    && AllProper(stack) && |Joined(stack)| <= (if i == 0 then 0 else i - 1)
    && WalkAll([], Split(s)) == if i <= |s| then WalkAll(stack, Split(s[i..])) else stack
  }

  lemma ReachedNext(s: seq<Byte>, i: nat, j: nat, stack: seq<seq<Byte>>)
    requires IsAbsolute(s) && Reached(s, i, stack)
    requires i <= j <= |s| && (j < |s| ==> s[j] == SLASH) && forall k | i <= k < j :: s[k] != SLASH
    ensures SLASH !in s[i..j] && (s[i..j] != [] ==> |Joined(stack)| + 1 + |s[i..j]| <= |s|)
    ensures Reached(s, j + 1, Walk(stack, s[i..j]))
  {
    hide Split, WalkAll, Walk, FirstSlash, Joined, AllProper;
    PieceAt(s, i, j);
    NextPiece(stack, s[i..]);
    WalkLength(stack, s[i..j]);
    WalkProper(stack, s[i..j]);
    assert j == |s| ==> s[i..j] == s[i..];
  }

  lemma WalkProper(stack: seq<seq<Byte>>, c: seq<Byte>)
    requires AllProper(stack) && SLASH !in c
    ensures AllProper(Walk(stack, c))
  {
  }

  lemma ReachedEnds(s: seq<Byte>, i: nat, stack: seq<seq<Byte>>)
    ensures s[0..] == s && Reached(s, 0, [])
    ensures Reached(s, i, stack) ==> AllProper(stack)
    ensures Reached(s, i, stack) && i > |s| ==> stack == WalkAll([], Split(s))
  {
  }

  lemma AnchoredIsAbsolute(cwd: seq<Byte>, input: seq<Byte>)
    requires cwd == [] || IsAbsolute(cwd)
    ensures IsAbsolute(Anchored(cwd, input)) && Render([]) == [SLASH]
  {
  }

  /** Resolve `input` against the working directory. */
  method ResolvePath(cwd: seq<Byte>, input: seq<Byte>, buf: array<Byte>) returns (path: seq<Byte>)
    requires buf.Length == MAX_PATH && (cwd == [] || IsAbsolute(cwd))
    modifies buf
    ensures path == Text(Resolve(cwd, input))
  {
    hide Utf8, Resolve;
    var olen := Normalise(cwd, input, buf);
    path := if Utf8(buf[..olen]) then buf[..olen] else [SLASH];
  }

  /** The bytes of the resolved path, whether they are text or not. */
  method Normalise(cwd: seq<Byte>, input: seq<Byte>, buf: array<Byte>) returns (olen: nat)
    requires buf.Length == MAX_PATH && (cwd == [] || IsAbsolute(cwd))
    modifies buf
    ensures olen <= MAX_PATH && buf[..olen] == Resolve(cwd, input)
  {
    hide Split, WalkAll, Walk, AllProper, Anchored, Joined, Render, Reached;
    AnchoredIsAbsolute(cwd, input);
    var tmp, tlen := Anchor(cwd, input);
    ghost var s := tmp[..tlen];
    buf[0] := SLASH;
    olen := 1;
    ghost var stack: seq<seq<Byte>> := [];
    ReachedEnds(s, 0, []);
    var i := 0;
    while i <= tlen
      invariant 0 <= i <= tlen + 1 && 1 <= olen <= MAX_PATH && tmp[..tlen] == s
      invariant buf[..olen] == Render(stack) && Reached(s, i, stack)
      decreases tlen + 1 - i
    {
      var j := NextSlash(tmp, i, tlen);
      ReachedEnds(s, i, stack);
      ReachedNext(s, i, j, stack);
      assert tmp[i..j] == s[i..j];
      olen := Descend(buf, olen, tmp[i..j], stack);
      stack := Walk(stack, s[i..j]);
      i := j + 1;
    }
    ReachedEnds(s, i, stack);
  }

  lemma PieceAt(s: seq<Byte>, i: nat, j: nat)
    requires i <= j <= |s| && (j < |s| ==> s[j] == SLASH) && forall k | i <= k < j :: s[k] != SLASH
    ensures FirstSlash(s[i..]) == j - i && s[i..][..j - i] == s[i..j] && SLASH !in s[i..j]
    ensures j < |s| ==> s[i..][j - i + 1..] == s[j + 1..]
    ensures i == 0 && IsAbsolute(s) ==> j == 0
  {
  }
}
