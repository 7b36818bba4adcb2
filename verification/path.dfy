/**
 Lexical path normalisation (src/kernel/vfs/vfs_path.c).

 The specification reads a path as a list of components and keeps a stack of
 them; the implementation edits one output buffer in place and remembers where
 each component starts.  Strings are C strings without their terminator.
 */
module Path {

  const MAX_COMPONENTS := 128
  const SCRATCH := 512

  // ---------------------------------------------------------------- specification

  /** Length of the longest slash-free prefix. */
  function Span(s: string): (n: nat)
    ensures n <= |s|
    ensures forall k :: 0 <= k < n ==> s[k] != '/'
    ensures n < |s| ==> s[n] == '/'
  {
    if s == "" || s[0] == '/' then 0 else 1 + Span(s[1..])
  }

  /** The non-empty components of a path, in order. */
  function Components(s: string): seq<string>
    decreases |s|
  {
    if s == "" then []
    else if s[0] == '/' then Components(s[1..])
    else [s[..Span(s)]] + Components(s[Span(s)..])
  }

  /** One component read against the stack: "." keeps it, ".." pops, a name pushes. */
  function Read(stack: seq<string>, c: string): seq<string> {
    if c == "." then stack
    else if c == ".." then (if stack == [] then [] else stack[..|stack| - 1])
    else stack + [c]
  }

  function ReadAll(stack: seq<string>, cs: seq<string>): seq<string>
    decreases |cs|
  {
    if cs == [] then stack else ReadAll(Read(stack, cs[0]), cs[1..])
  }

  /** Every component preceded by a slash. */
  function Slashed(stack: seq<string>): string {
    if stack == [] then "" else Slashed(stack[..|stack| - 1]) + "/" + stack[|stack| - 1]
  }

  function Render(stack: seq<string>): string {
    if stack == [] then "/" else Slashed(stack)
  }

  /** The stack and its text (with terminator) are within the limits of the code. */
  predicate FitsOne(stack: seq<string>, size: nat) {
    |stack| <= MAX_COMPONENTS && |Render(stack)| + 1 <= size
  }

  /** Every stack met while reading `cs` is within the limits. */
  predicate Fits(stack: seq<string>, cs: seq<string>, size: nat)
    decreases |cs|
  {
    FitsOne(stack, size) && (cs == [] || Fits(Read(stack, cs[0]), cs[1..], size))
  }

  predicate Absolute(s: string) {
    s != "" && s[0] == '/'
  }

  predicate Normalizable(s: string, size: nat) {
    Absolute(s) && Fits([], Components(s), size)
  }

  function Normal(s: string): string {
    Render(ReadAll([], Components(s)))
  }

  /** A proper name: no slash, not empty, neither "." nor "..". */
  predicate Name(c: string) {
    c != "" && '/' !in c && c != "." && c != ".."
  }

  predicate Names(stack: seq<string>) {
    forall k :: 0 <= k < |stack| ==> Name(stack[k])
  }

  predicate PlainComponents(cs: seq<string>) {
    forall k :: 0 <= k < |cs| ==> cs[k] != "" && '/' !in cs[k]
  }

  /** `s` is what a C reader sees in `buf`. */
  predicate Holds(buf: seq<char>, s: string) {
    |s| < |buf| && buf[..|s|] == s && buf[|s|] == '\0'
  }

  predicate CString(s: string) {
    '\0' !in s
  }

  // ---------------------------------------------------------------- properties of the specification

  lemma {:induction false} ComponentsPlain(s: string)
    ensures PlainComponents(Components(s))
    decreases |s|
  {
    if s == "" {
    } else if s[0] == '/' {
      ComponentsPlain(s[1..]);
    } else {
      ComponentsPlain(s[Span(s)..]);
    }
  }

  lemma {:induction false} ReadAllNames(stack: seq<string>, cs: seq<string>)
    requires Names(stack) && PlainComponents(cs)
    ensures Names(ReadAll(stack, cs))
    decreases |cs|
  {
    if cs != [] {
      ReadAllNames(Read(stack, cs[0]), cs[1..]);
    }
  }

  lemma SpanOfName(c: string, rest: string)
    requires '/' !in c
    requires rest == "" || rest[0] == '/'
    ensures Span(c + rest) == |c|
  {
    SpanPrefix(c, rest);
  }

  lemma {:induction false} ComponentsSplit(a: string, b: string)
    requires b == "" || b[0] == '/'
    ensures Components(a + b) == Components(a) + Components(b)
    decreases |a|
  {
    if a == "" {
      assert a + b == b;
    } else if a[0] == '/' {
      assert (a + b)[1..] == a[1..] + b;
      ComponentsSplit(a[1..], b);
    } else {
      var n := Span(a);
      SpanPrefix(a, b);
      assert (a + b)[..n] == a[..n];
      assert (a + b)[n..] == a[n..] + b;
      ComponentsSplit(a[n..], b);
    }
  }

  lemma {:induction false} SpanPrefix(a: string, b: string)
    requires b == "" || b[0] == '/'
    ensures Span(a + b) == Span(a)
    decreases |a|
  {
    if a == "" {
      assert a + b == b;
    } else if a[0] != '/' {
      assert (a + b)[1..] == a[1..] + b;
      SpanPrefix(a[1..], b);
    }
  }

  /** Joining two paths with a slash joins their component lists. */
  lemma ComponentsJoin(a: string, b: string)
    ensures Components(a + "/" + b) == Components(a) + Components(b)
  {
    assert a + "/" + b == a + ("/" + b);
    ComponentsSplit(a, "/" + b);
    assert ("/" + b)[1..] == b;
  }

  lemma {:induction false} ComponentsSlashed(stack: seq<string>)
    requires Names(stack)
    ensures Components(Slashed(stack)) == stack
  {
    if stack != [] {
      var init, c := stack[..|stack| - 1], stack[|stack| - 1];
      ComponentsSlashed(init);
      ComponentsJoin(Slashed(init), c);
      SpanOfName(c, "");
      assert c + "" == c;
      assert c[..|c|] == c && c[|c|..] == "";
      assert Components(c) == [c];
    }
  }

  /** Reading back the text of a stack of names gives the stack. */
  lemma RenderRoundTrip(stack: seq<string>)
    requires Names(stack)
    ensures Components(Render(stack)) == stack
  {
    if stack == [] {
      assert "/"[1..] == "";
    } else {
      ComponentsSlashed(stack);
    }
  }

  lemma {:induction false} ReadNamesPushes(stack: seq<string>, cs: seq<string>)
    requires Names(cs)
    ensures ReadAll(stack, cs) == stack + cs
    decreases |cs|
  {
    if cs != [] {
      ReadNamesPushes(stack + [cs[0]], cs[1..]);
    }
  }

  /** The text of a prefix of the stack is never longer than that of the stack. */
  lemma {:induction false} SlashedGrows(stack: seq<string>, k: nat)
    requires k <= |stack|
    ensures |Slashed(stack[..k])| <= |Slashed(stack)|
    ensures k < |stack| ==> |Slashed(stack[..k])| + 1 + |stack[k]| <= |Slashed(stack)|
    decreases |stack|
  {
    if k == |stack| {
      assert stack[..k] == stack;
    } else {
      var init := stack[..|stack| - 1];
      if k < |init| {
        SlashedGrows(init, k);
        assert init[..k] == stack[..k];
      } else {
        assert stack[..k] == init;
      }
    }
  }

  lemma PrefixFits(stack: seq<string>, k: nat, size: nat)
    requires k <= |stack| && FitsOne(stack, size) && size >= 2
    ensures FitsOne(stack[..k], size)
  {
    SlashedGrows(stack, k);
  }

  lemma {:induction false} NamesFit(stack: seq<string>, k: nat, size: nat)
    requires k <= |stack| && Names(stack) && FitsOne(stack, size) && size >= 2
    ensures Fits(stack[..k], stack[k..], size)
    decreases |stack| - k
  {
    hide FitsOne;
    PrefixFits(stack, k, size);
    if k < |stack| {
      NamesFit(stack, k + 1, size);
      assert stack[k..][0] == stack[k] && stack[k..][1..] == stack[k + 1..];
      assert Read(stack[..k], stack[k]) == stack[..k + 1];
    }
  }

  lemma {:induction false} FitsAtEnd(stack: seq<string>, cs: seq<string>, size: nat)
    requires Fits(stack, cs, size)
    ensures FitsOne(ReadAll(stack, cs), size)
    decreases |cs|
  {
    if cs != [] {
      FitsAtEnd(Read(stack, cs[0]), cs[1..], size);
    }
  }

  /** The normal form keeps only proper names. */
  lemma NormalOnlyNames(s: string)
    ensures Names(Components(Normal(s)))
    ensures Absolute(Normal(s))
  {
    ComponentsPlain(s);
    ReadAllNames([], Components(s));
    var stack := ReadAll([], Components(s));
    RenderRoundTrip(stack);
    if stack != [] {
      SlashedGrows(stack, 0);
      SlashedAbsolute(stack);
    }
  }

  lemma {:induction false} SlashedAbsolute(stack: seq<string>)
    requires stack != []
    ensures Absolute(Slashed(stack))
  {
    if |stack| > 1 {
      SlashedAbsolute(stack[..|stack| - 1]);
    }
  }

  /** Normalising a normal form succeeds in the same buffer and gives it back. */
  lemma NormalIdempotent(s: string, size: nat)
    requires size >= 2
    ensures Normal(Normal(s)) == Normal(s)
    ensures Normalizable(s, size) ==> Normalizable(Normal(s), size)
  {
    ComponentsPlain(s);
    ReadAllNames([], Components(s));
    var stack := ReadAll([], Components(s));
    RenderRoundTrip(stack);
    ReadNamesPushes([], stack);
    assert [] + stack == stack;
    NormalOnlyNames(s);
    if Normalizable(s, size) {
      FitsAtEnd([], Components(s), size);
      NamesFit(stack, 0, size);
      assert stack[..0] == [] && stack[0..] == stack;
    }
  }

  // ---------------------------------------------------------------- laws of the normal form

  lemma {:induction false} ReadAllJoin(stack: seq<string>, a: seq<string>, b: seq<string>)
    ensures ReadAll(stack, a + b) == ReadAll(ReadAll(stack, a), b)
    decreases |a|
  {
    if a == [] {
      assert a + b == b;
    } else {
      assert (a + b)[1..] == a[1..] + b;
      ReadAllJoin(Read(stack, a[0]), a[1..], b);
    }
  }

  lemma OneComponent(c: string)
    requires c != "" && '/' !in c
    ensures Components(c) == [c]
  {
    SpanOfName(c, "");
    assert c + "" == c && c[..|c|] == c && c[|c|..] == "";
  }

  /** What stands in the middle of a path matters only by the components it reads as. */
  lemma Between(a: string, m: string, b: string)
    ensures Components(a + "/" + m + "/" + b) == Components(a) + Components(m) + Components(b)
  {
    ComponentsJoin(a + "/" + m, b);
    ComponentsJoin(a, m);
  }

  /** A name followed by ".." may be left out. */
  lemma ParentLaw(a: string, c: string, b: string)
    requires Name(c)
    ensures Normal(a + "/" + c + "/../" + b) == Normal(a + "/" + b)
  {
    var ca, cb := Components(a), Components(b);
    assert a + "/" + c + "/../" + b == a + "/" + (c + "/" + "..") + "/" + b;
    Between(a, c + "/" + "..", b);
    ComponentsJoin(c, "..");
    OneComponent(c);
    OneComponent("..");
    ComponentsJoin(a, b);
    assert [c] + [".."] == [c, ".."];
    assert Components(a + "/" + (c + "/" + "..") + "/" + b) == ca + [c, ".."] + cb;
    ReadAllJoin([], ca + [c, ".."], cb);
    ReadAllJoin([], ca, [c, ".."]);
    ReadAllJoin([], ca, cb);
    var stack := ReadAll([], ca);
    assert [c, ".."][1..] == [".."] && [".."][1..] == [];
    assert (stack + [c])[..|stack|] == stack;
    assert ReadAll(stack, [c, ".."]) == stack;
  }

  /** The root is its own parent. */
  lemma RootLaw(b: string)
    ensures Normal("/../" + b) == Normal("/" + b)
  {
    assert "/../" + b == "" + "/" + ".." + "/" + b;
    Between("", "..", b);
    OneComponent("..");
    assert "/" + b == "" + "/" + b;
    ComponentsJoin("", b);
    assert [] + [".."] + Components(b) == [".."] + Components(b);
    assert ([".."] + Components(b))[1..] == Components(b);
  }

  lemma DotLaw(a: string, b: string)
    ensures Normal(a + "/./" + b) == Normal(a + "/" + b)
  {
    var ca, cb := Components(a), Components(b);
    assert a + "/./" + b == a + "/" + "." + "/" + b;
    Between(a, ".", b);
    OneComponent(".");
    ComponentsJoin(a, b);
    ReadAllJoin([], ca + ["."], cb);
    ReadAllJoin([], ca, ["."]);
    ReadAllJoin([], ca, cb);
    assert ["."][1..] == [];
  }

  lemma SlashLaw(a: string, b: string)
    ensures Normal(a + "//" + b) == Normal(a + "/" + b)
  {
    assert a + "//" + b == a + "/" + "" + "/" + b;
    Between(a, "", b);
    ComponentsJoin(a, b);
    assert Components(a) + [] + Components(b) == Components(a) + Components(b);
  }

  // ---------------------------------------------------------------- what a path leads to

  /** A tree of directories: children by name, and the parent of every node, the root's being itself. */
  datatype Tree = Tree(root: nat, child: map<(nat, string), nat>, parent: map<nat, nat>)

  ghost predicate TreeOk(t: Tree) {
    && t.root in t.parent && t.parent[t.root] == t.root
    && forall n, c :: (n, c) in t.child ==> t.child[(n, c)] in t.parent && t.parent[t.child[(n, c)]] == n
  }

  datatype Place = At(node: nat) | Lost

  /** One component walked from a node. */
  function Walk1(t: Tree, n: nat, c: string): Place {
    if c == "." then At(n)
    else if c == ".." then (if n in t.parent then At(t.parent[n]) else Lost)
    else if (n, c) in t.child then At(t.child[(n, c)]) else Lost
  }

  function Walk(t: Tree, n: nat, cs: seq<string>): Place
    decreases |cs|
  {
    if cs == [] then At(n)
    else match Walk1(t, n, cs[0])
      case At(m) => Walk(t, m, cs[1..])
      case Lost => Lost
  }

  lemma {:induction false} WalkJoin(t: Tree, n: nat, a: seq<string>, b: seq<string>)
    ensures Walk(t, n, a + b) == match Walk(t, n, a) case At(m) => Walk(t, m, b) case Lost => Lost
    decreases |a|
  {
    if a == [] {
      assert a + b == b;
    } else {
      assert (a + b)[1..] == a[1..] + b;
      match Walk1(t, n, a[0])
      case At(m) => WalkJoin(t, m, a[1..], b);
      case Lost =>
    }
  }

  /** Where the stack leads, one more component read leads on. */
  lemma ReadWalks(t: Tree, stack: seq<string>, n: nat, c: string, m: nat)
    requires TreeOk(t) && Names(stack) && c != "" && '/' !in c
    requires Walk(t, t.root, stack) == At(n) && Walk1(t, n, c) == At(m)
    ensures Walk(t, t.root, Read(stack, c)) == At(m)
  {
    if c == ".." {
      if stack != [] {
        var k := |stack| - 1;
        assert stack == stack[..k] + [stack[k]];
        WalkJoin(t, t.root, stack[..k], [stack[k]]);
        assert [stack[k]][1..] == [];
      }
    } else if c != "." {
      WalkJoin(t, t.root, stack, [c]);
      assert [c][1..] == [];
    }
  }

  lemma {:induction false} ReadAllWalks(t: Tree, stack: seq<string>, n: nat, cs: seq<string>)
    requires TreeOk(t) && Names(stack) && PlainComponents(cs) && Walk(t, t.root, stack) == At(n)
    requires Walk(t, n, cs).At?
    ensures Walk(t, t.root, ReadAll(stack, cs)) == Walk(t, n, cs)
    decreases |cs|
  {
    if cs != [] {
      var m := Walk1(t, n, cs[0]).node;
      ReadWalks(t, stack, n, cs[0], m);
      ReadAllWalks(t, Read(stack, cs[0]), m, cs[1..]);
    }
  }

  /** In every tree a path that leads somewhere has a normal form that leads there too. */
  lemma NormalLeadsThere(t: Tree, s: string)
    requires TreeOk(t) && Walk(t, t.root, Components(s)).At?
    ensures Walk(t, t.root, Components(Normal(s))) == Walk(t, t.root, Components(s))
  {
    ComponentsPlain(s);
    ReadAllNames([], Components(s));
    RenderRoundTrip(ReadAll([], Components(s)));
    ReadAllWalks(t, [], t.root, Components(s));
  }

  // ---------------------------------------------------------------- vfs_normalize_absolute_path

  lemma SlashedPop(stack: seq<string>)
    requires stack != []
    ensures |Slashed(stack)| == |Slashed(stack[..|stack| - 1])| + 1 + |stack[|stack| - 1]|
    ensures Slashed(stack)[..|Slashed(stack[..|stack| - 1])|] == Slashed(stack[..|stack| - 1])
  {
  }

  lemma SlashedPush(stack: seq<string>, c: string)
    ensures Slashed(stack + [c]) == Slashed(stack) + "/" + c
  {
    assert (stack + [c])[..|stack|] == stack;
  }

  lemma {:induction false} SkipSlashes(s: string, i: nat, j: nat)
    requires i <= j <= |s|
    requires forall k :: i <= k < j ==> s[k] == '/'
    ensures Components(s[i..]) == Components(s[j..])
    decreases j - i
  {
    if i < j {
      assert s[i..][1..] == s[i + 1..];
      SkipSlashes(s, i + 1, j);
    }
  }

  lemma NextComponent(s: string, start: nat, i: nat)
    requires start < i <= |s|
    requires forall k :: start <= k < i ==> s[k] != '/'
    requires i == |s| || s[i] == '/'
    ensures Components(s[start..]) == [s[start..i]] + Components(s[i..])
  {
    var c, rest := s[start..i], s[i..];
    assert s[start..] == c + rest;
    SpanOfName(c, rest);
    assert s[start..][..|c|] == c && s[start..][|c|..] == rest;
  }

  /** Where component `k` of the stack starts in the buffer. */
  ghost predicate Starts(componentStart: seq<nat>, stack: seq<string>)
    requires |componentStart| == MAX_COMPONENTS && |stack| <= MAX_COMPONENTS
  {
    forall k :: 0 <= k < |stack| ==> componentStart[k] == |Slashed(stack[..k])| + 1
  }

  /** The buffer, its cursor and the recorded starts describe `stack`. */
  ghost predicate Describes(out: seq<char>, starts: seq<nat>, outPos: nat, depth: nat, stack: seq<string>) {
    && |starts| == MAX_COMPONENTS
    && depth == |stack| && FitsOne(stack, |out|)
    && outPos == |Render(stack)|
    && Holds(out, Render(stack))
    && Starts(starts, stack)
    && (forall k :: 0 <= k < |stack| ==> stack[k] != "")
  }

  /** The ".." branch. */
  method PopComponent(output: array<char>, componentStart: array<nat>, outPos: nat, depth: nat,
                      ghost stack: seq<string>)
    returns (outPos': nat, depth': nat)
    requires Describes(output[..], componentStart[..], outPos, depth, stack)
    modifies output
    ensures Describes(output[..], componentStart[..], outPos', depth',
                      if stack == [] then [] else stack[..|stack| - 1])
  {
    outPos', depth' := outPos, depth;
    if depth > 0 {
      ghost var below := stack[..depth - 1];
      SlashedPop(stack);
      outPos' := componentStart[depth - 1];
      assert outPos' == |Slashed(below)| + 1;
      if outPos' > 1 {
        outPos' := outPos' - 1;
      }
      assert outPos' == |Render(below)| by {
        if below != [] { SlashedAbsolute(below); }
      }
      assert output[..outPos'] == Render(below) by {
        if below == [] { SlashedAbsolute(stack); }
      }
      output[outPos'] := '\0';
      depth' := depth - 1;
      assert forall k :: 0 <= k < |below| ==> below[..k] == stack[..k];
    }
  }

  lemma PushDescribes(out: seq<char>, was: seq<nat>, starts: seq<nat>, stack: seq<string>, c: string)
    requires |was| == MAX_COMPONENTS && |stack| < MAX_COMPONENTS && Starts(was, stack)
    requires starts == was[|stack| := |Slashed(stack)| + 1]
    requires forall k :: 0 <= k < |stack| ==> stack[k] != ""
    requires c != "" && Holds(out, Slashed(stack) + "/" + c)
    ensures Describes(out, starts, |Slashed(stack)| + 1 + |c|, |stack| + 1, stack + [c])
  {
    var taller := stack + [c];
    SlashedPush(stack, c);
    assert forall k :: 0 <= k < |stack| ==> taller[..k] == stack[..k];
    assert taller[..|stack|] == stack;
  }

  /** The copying loop of the name branch. */
  method CopyInto(input: string, start: nat, len: nat, output: array<char>, at: nat)
    requires start + len <= |input| && at + len <= output.Length
    modifies output
    ensures output[..at + len] == old(output[..at]) + input[start..start + len]
  {
    var j := 0;
    while j < len
      invariant 0 <= j <= len
      invariant output[..at + j] == old(output[..at]) + input[start..start + j]
    {
      output[at + j] := input[start + j];
      j := j + 1;
    }
  }

  /** The slash before a name, unless the root slash is there already. */
  method AddSeparator(output: array<char>, outPos: nat, ghost stack: seq<string>) returns (ok: bool, outPos': nat)
    requires outPos == |Render(stack)| && Holds(output[..], Render(stack))
    requires forall k :: 0 <= k < |stack| ==> stack[k] != ""
    modifies output
    ensures ok ==> outPos' == |Slashed(stack)| + 1 < output.Length && output[..outPos'] == Slashed(stack) + "/"
    ensures !ok ==> |Slashed(stack)| + 1 >= output.Length
  {
    outPos' := outPos;
    if stack != [] { SlashedPop(stack); }
    if outPos' > 1 {
      if outPos' + 1 >= output.Length {
        return false, outPos';
      }
      output[outPos'] := '/';
      outPos' := outPos' + 1;
    }
    ok := true;
  }

  /** The branch for an ordinary name `input[start..start+len]`. */
  method PushComponent(input: string, start: nat, len: nat, output: array<char>, componentStart: array<nat>,
                       outPos: nat, depth: nat, ghost stack: seq<string>)
    returns (ok: bool, outPos': nat, depth': nat)
    requires 0 < len && start + len <= |input|
    requires Describes(output[..], componentStart[..], outPos, depth, stack)
    modifies output, componentStart
    ensures ok <==> FitsOne(stack + [input[start..start + len]], output.Length)
    ensures ok ==> Describes(output[..], componentStart[..], outPos', depth', stack + [input[start..start + len]])
  {
    hide Starts, Slashed;
    ghost var c := input[start..start + len];
    SlashedPush(stack, c);
    outPos', depth' := outPos, depth;
    if depth >= MAX_COMPONENTS {
      return false, outPos', depth';
    }
    ok, outPos' := AddSeparator(output, outPos', stack);
    if !ok {
      return false, outPos', depth';
    }
    componentStart[depth'] := outPos';
    depth' := depth' + 1;
    if outPos' + len + 1 > output.Length {
      return false, outPos', depth';
    }
    CopyInto(input, start, len, output, outPos');
    outPos' := outPos' + len;
    output[outPos'] := '\0';
    PushDescribes(output[..], old(componentStart[..]), componentStart[..], stack, c);
    ok := true;
  }

  /** Reading `input` from the start is reading the rest from `stack`. */
  ghost predicate Remaining(input: string, i: nat, stack: seq<string>, size: nat)
    requires i <= |input|
  {
    && ReadAll([], Components(input)) == ReadAll(stack, Components(input[i..]))
    && Fits([], Components(input), size) == Fits(stack, Components(input[i..]), size)
  }

  lemma Advance(input: string, i: nat, c: string, j: nat, stack: seq<string>, size: nat)
    requires i <= |input| && j <= |input|
    requires Remaining(input, i, stack, size) && FitsOne(stack, size)
    requires Components(input[i..]) == [c] + Components(input[j..])
    ensures Remaining(input, j, Read(stack, c), size)
    ensures !FitsOne(Read(stack, c), size) ==> !Fits([], Components(input), size)
  {
    var cs := Components(input[i..]);
    assert cs[0] == c && cs[1..] == Components(input[j..]);
  }

  lemma Finish(input: string, i: nat, stack: seq<string>, size: nat)
    requires i <= |input| && Remaining(input, i, stack, size) && FitsOne(stack, size)
    requires Components(input[i..]) == []
    ensures Fits([], Components(input), size) && Normal(input) == Render(stack)
  {
  }

  lemma DotForms(input: string, start: nat, end: nat)
    requires start < end <= |input|
    ensures input[start..end] == "." <==> end - start == 1 && input[start] == '.'
    ensures input[start..end] == ".." <==> end - start == 2 && input[start] == '.' && input[start + 1] == '.'
  {
    var c := input[start..end];
    assert c[0] == input[start] && (|c| == 2 ==> c[1] == input[start + 1]);
  }

  lemma DescribedFits(out: seq<char>, starts: seq<nat>, outPos: nat, depth: nat, stack: seq<string>)
    requires Describes(out, starts, outPos, depth, stack)
    ensures FitsOne(stack, |out|)
  {
  }

  /** The three-way choice on one component. */
  method ReadComponent(input: string, start: nat, end: nat, output: array<char>, componentStart: array<nat>,
                       outPos: nat, depth: nat, ghost stack: seq<string>)
    returns (ok: bool, outPos': nat, depth': nat)
    requires start < end <= |input|
    requires Describes(output[..], componentStart[..], outPos, depth, stack)
    modifies output, componentStart
    ensures ok <==> FitsOne(Read(stack, input[start..end]), output.Length)
    ensures ok ==> Describes(output[..], componentStart[..], outPos', depth', Read(stack, input[start..end]))
  {
    hide Describes, FitsOne;
    var len := end - start;
    DotForms(input, start, end);
    if len == 1 && input[start] == '.' {
      DescribedFits(output[..], componentStart[..], outPos, depth, stack);
      return true, outPos, depth;
    }
    if len == 2 && input[start] == '.' && input[start + 1] == '.' {
      outPos', depth' := PopComponent(output, componentStart, outPos, depth, stack);
      DescribedFits(output[..], componentStart[..], outPos', depth', Read(stack, ".."));
      return true, outPos', depth';
    }
    ok, outPos', depth' := PushComponent(input, start, len, output, componentStart, outPos, depth, stack);
  }

  /** vfs_normalize_absolute_path: `output.Length` is the `size` argument. */
  method NormalizeAbsolute(input: string, output: array<char>) returns (ok: bool)
    modifies output
    ensures ok <==> output.Length >= 2 && Normalizable(input, output.Length)
    ensures ok ==> Holds(output[..], Normal(input))
  {
    if output.Length < 2 || input == "" || input[0] != '/' {
      return false;
    }
    output[0] := '/';
    output[1] := '\0';
    var outPos, depth := 1, 0;
    var componentStart := new nat[MAX_COMPONENTS](_ => 0);
    ghost var stack: seq<string> := [];
    assert input[0..] == input;
    var i := 0;
    while i < |input|
      invariant i <= |input|
      invariant fresh(componentStart)
      invariant Describes(output[..], componentStart[..], outPos, depth, stack)
      invariant Remaining(input, i, stack, output.Length)
    {
      var start, end := NextBounds(input, i);
      if start == |input| {
        break;
      }
      Advance(input, i, input[start..end], end, stack, output.Length);
      ok, outPos, depth := ReadComponent(input, start, end, output, componentStart, outPos, depth, stack);
      if !ok {
        return false;
      }
      stack := Read(stack, input[start..end]);
      i := end;
    }
    Finish(input, i, stack, output.Length);
    return true;
  }

  /** The two scanning loops: skip slashes, then take the component. */
  method NextBounds(input: string, from: nat) returns (start: nat, end: nat)
    requires from < |input|
    ensures from <= start <= end <= |input| && from < end
    ensures start == |input| ==> Components(input[from..]) == [] && end == |input|
    ensures start < |input| ==> start < end
    ensures start < |input| ==> Components(input[from..]) == [input[start..end]] + Components(input[end..])
  {
    var i := from;
    while i < |input| && input[i] == '/'
      invariant from <= i <= |input|
      invariant forall k :: from <= k < i ==> input[k] == '/'
    {
      i := i + 1;
    }
    SkipSlashes(input, from, i);
    start := i;
    while i < |input| && input[i] != '/'
      invariant start <= i <= |input|
      invariant forall k :: start <= k < i ==> input[k] != '/'
    {
      i := i + 1;
    }
    end := i;
    if start < |input| {
      NextComponent(input, start, end);
    }
  }

  // ---------------------------------------------------------------- vfs_resolve_path

  /** The path that a call resolves: relative inputs are read after the working directory. */
  function Subject(cwd: string, input: string): string {
    if Absolute(input) then input else cwd + "/" + input
  }

  function LeadingSlashes(s: string): (n: nat)
    ensures n <= |s|
    ensures forall k :: 0 <= k < n ==> s[k] == '/'
    ensures n < |s| ==> s[n] != '/'
  {
    if s == "" || s[0] != '/' then 0 else 1 + LeadingSlashes(s[1..])
  }

  /** The part of the working directory that is copied. */
  function CwdStart(cwd: string): (n: nat)
    requires cwd != ""
    ensures n < |cwd|
  {
    if LeadingSlashes(cwd) == |cwd| then |cwd| - 1 else LeadingSlashes(cwd)
  }

  /** What the code builds in its scratch buffer. */
  function Combined(cwd: string, input: string): string
    requires cwd != ""
  {
    "/" + cwd[CwdStart(cwd)..] + (if cwd[|cwd| - 1] == '/' then "" else "/") + input
  }

  predicate Resolvable(cwd: string, input: string, size: nat) {
    && 0 < size <= SCRATCH
    && input != ""
    && (!Absolute(input) ==> cwd != "" && |Combined(cwd, input)| + 1 <= SCRATCH)
    && Fits([], Components(Subject(cwd, input)), SCRATCH)
    && |Normal(Subject(cwd, input))| + 1 <= size
  }

  lemma KeptComponents(cwd: string)
    requires cwd != ""
    ensures Components("/" + cwd[CwdStart(cwd)..]) == Components(cwd)
  {
    var kept := cwd[CwdStart(cwd)..];
    SkipSlashes(cwd, 0, CwdStart(cwd));
    assert cwd[0..] == cwd;
    assert ("/" + kept)[1..] == kept;
  }

  /** A trailing slash already separates. */
  lemma JoinAfterSlash(a: string, b: string)
    requires a != "" && a[|a| - 1] == '/'
    ensures Components(a + b) == Components(a) + Components(b)
  {
    assert Components("") == [];
    hide Components;
    var body := a[..|a| - 1];
    ComponentsJoin(body, b);
    assert a + b == body + "/" + b;
    ComponentsJoin(body, "");
    assert a == body + "/" + "";
  }

  /** The scratch text has the components of the working directory, then those of the input. */
  lemma CombinedComponents(cwd: string, input: string)
    requires cwd != ""
    ensures Components(Combined(cwd, input)) == Components(cwd + "/" + input)
    ensures Absolute(Combined(cwd, input))
  {
    var head := "/" + cwd[CwdStart(cwd)..];
    KeptComponents(cwd);
    ComponentsJoin(cwd, input);
    if cwd[|cwd| - 1] == '/' {
      JoinAfterSlash(head, input);
      assert Combined(cwd, input) == head + input;
    } else {
      ComponentsJoin(head, input);
    }
  }

  lemma {:induction false} ComponentsCString(s: string)
    requires CString(s)
    ensures forall k :: 0 <= k < |Components(s)| ==> CString(Components(s)[k])
    decreases |s|
  {
    if s == "" {
    } else if s[0] == '/' {
      ComponentsCString(s[1..]);
    } else {
      ComponentsCString(s[Span(s)..]);
    }
  }

  lemma {:induction false} ReadAllCString(stack: seq<string>, cs: seq<string>)
    requires forall k :: 0 <= k < |stack| ==> CString(stack[k])
    requires forall k :: 0 <= k < |cs| ==> CString(cs[k])
    ensures CString(Slashed(ReadAll(stack, cs)))
    decreases |cs|
  {
    if cs == [] {
      SlashedCString(stack);
    } else {
      ReadAllCString(Read(stack, cs[0]), cs[1..]);
    }
  }

  lemma {:induction false} SlashedCString(stack: seq<string>)
    requires forall k :: 0 <= k < |stack| ==> CString(stack[k])
    ensures CString(Slashed(stack))
  {
    if stack != [] {
      SlashedCString(stack[..|stack| - 1]);
    }
  }

  lemma NormalCString(s: string)
    requires CString(s)
    ensures CString(Normal(s))
  {
    ComponentsCString(s);
    ReadAllCString([], Components(s));
  }

  /** strlen on a buffer that holds a C string. */
  method Strlen(buf: array<char>, ghost s: string) returns (n: nat)
    requires CString(s) && Holds(buf[..], s)
    ensures n == |s|
  {
    n := 0;
    while buf[n] != '\0'
      invariant n <= |s|
      invariant n < |s| ==> buf[n] == s[n]
      decreases |s| - n
    {
      assert buf[..][|s|] == '\0';
      assert n + 1 < |s| ==> buf[..|s|][n + 1] == s[n + 1];
      n := n + 1;
    }
  }

  /** The loop over the leading slashes of the working directory. */
  method SkipCwd(cwd: string) returns (start: nat)
    requires cwd != ""
    ensures start == CwdStart(cwd)
  {
    start := 0;
    assert cwd[0..] == cwd;
    while start < |cwd| && cwd[start] == '/'
      invariant start <= |cwd|
      invariant start + LeadingSlashes(cwd[start..]) == LeadingSlashes(cwd)
    {
      assert cwd[start..][1..] == cwd[start + 1..];
      start := start + 1;
    }
    if start == |cwd| {
      start := |cwd| - 1;
    }
  }

  method BuildCombined(cwd: string, start: nat, input: string, combined: array<char>) returns (pos: nat)
    requires cwd != "" && start == CwdStart(cwd) && |Combined(cwd, input)| + 1 <= combined.Length
    modifies combined
    ensures pos == |Combined(cwd, input)| && Holds(combined[..], Combined(cwd, input))
  {
    combined[0] := '/';
    CopyInto(cwd, start, |cwd| - start, combined, 1);
    pos := 1 + |cwd| - start;
    assert combined[..pos] == "/" + cwd[start..];
    assert combined[pos - 1] == cwd[|cwd| - 1];
    if combined[pos - 1] != '/' {
      combined[pos] := '/';
      pos := pos + 1;
    }
    CopyInto(input, 0, |input|, combined, pos);
    pos := pos + |input|;
    combined[pos] := '\0';
  }

  /** strlen, size test and strcpy at the end of both branches. */
  method Deliver(normalized: array<char>, output: array<char>, ghost s: string) returns (ok: bool)
    requires normalized != output && CString(s) && Holds(normalized[..], s)
    modifies output
    ensures ok <==> |s| + 1 <= output.Length
    ensures ok ==> Holds(output[..], s)
  {
    var n := Strlen(normalized, s);
    if n + 1 > output.Length {
      return false;
    }
    CopyInto(normalized[..], 0, n, output, 0);
    output[n] := '\0';
    assert output[..n] == s;
    ok := true;
  }

  /** vfs_resolve_path. */
  method Resolve(cwd: string, input: string, output: array<char>) returns (ok: bool)
    requires CString(cwd) && CString(input)
    modifies output
    ensures ok <==> Resolvable(cwd, input, output.Length)
    ensures ok ==> Holds(output[..], Normal(Subject(cwd, input)))
  {
    if output.Length == 0 || input == "" || output.Length > SCRATCH {
      return false;
    }
    var normalized := new char[SCRATCH](_ => '\0');
    NormalCString(Subject(cwd, input));
    if input[0] == '/' {
      ok := NormalizeAbsolute(input, normalized);
      if ok {
        ok := Deliver(normalized, output, Normal(input));
      }
      return;
    }
    if cwd == "" {
      return false;
    }
    var cwdStart := SkipCwd(cwd);
    var needed := 1 + (|cwd| - cwdStart) + |input| + 1;
    if cwd[|cwd| - 1] != '/' {
      needed := needed + 1;
    }
    if needed > SCRATCH {
      return false;
    }
    var combined := new char[SCRATCH](_ => '\0');
    var pos := BuildCombined(cwd, cwdStart, input, combined);
    CombinedComponents(cwd, input);
    ok := NormalizeAbsolute(combined[..pos], normalized);
    if ok {
      ok := Deliver(normalized, output, Normal(Subject(cwd, input)));
    }
  }

  /**
   The answer of a relative call is itself absolute and normal, and resolving it again from
   anywhere changes nothing.
   */
  lemma ResolveStable(cwd: string, input: string, elsewhere: string, size: nat)
    requires Resolvable(cwd, input, size) && size >= 2
    ensures var r := Normal(Subject(cwd, input));
            Names(Components(r)) && Resolvable(elsewhere, r, size) && Normal(Subject(elsewhere, r)) == r
  {
    var s := Subject(cwd, input);
    NormalOnlyNames(s);
    NormalIdempotent("/" + s, SCRATCH);
    ComponentsJoin("", s);
    assert "" + "/" + s == "/" + s;
  }
}
