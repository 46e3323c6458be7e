/**
 * The saved-outputs page: the parser that cuts a run transcript into per-node sections, and
 * the deletion of a saved output.
 */
module OutputPage {
  import opened Js
  import opened JsText
  import Workflow
  import Ollama = OllamaNode
  import SD = SDForgeNode
  import I2I = SDImageToImageNode

  datatype Kind = Ollama | SDForge | Other

  /** The `as "Ollama" | "SDForge"` cast applied to a captured marker name. */
  function KindOf(name: string): Kind {
    if name == "Ollama" then Ollama else SDForge
  }

  /** The text of a split point, around the captured node type. */
  function MarkerText(name: string): string {
    "\nExecuting " + name + " Node: "
  }

  /** The node type captured by a split point starting at the front of `s`, if any. */
  function MarkerAt(s: string): Option<string> {
    if |s| == 0 || s[0] != '\n' then None
    else if StartsWith(s, MarkerText("Ollama")) then Some("Ollama")
    else if StartsWith(s, MarkerText("SDForge")) then Some("SDForge")
    else None
  }

  predicate IsMarkerName(name: string) {
    name == "Ollama" || name == "SDForge"
  }

  predicate NoNewline(s: string) {
    forall i :: 0 <= i < |s| ==> s[i] != '\n'
  }

  /** Both split points hold a line break at their first character and nowhere else. */
  lemma MarkerShape(name: string)
    requires IsMarkerName(name)
    ensures |MarkerText(name)| > 1 && MarkerText(name)[0] == '\n'
    ensures NoNewline(MarkerText(name)[1..])
  {
  }

  /** Adds a character to the front of the first piece of a split. */
  function Cons(c: char, pieces: seq<string>): seq<string>
    requires |pieces| > 0
  {
    [[c] + pieces[0]] + pieces[1..]
  }

  /**
   * `s.split(/\nExecuting (Ollama|SDForge) Node: /)`: the texts between split points, with the
   * captured node type of each split point in between, scanning from the left.
   */
  function Split(s: string): (r: seq<string>)
    ensures |r| % 2 == 1
    decreases |s|
  {
    if |s| == 0 then [""]
    else if MarkerAt(s).Some? then
      var name := MarkerAt(s).value;
      ["", name] + Split(s[|MarkerText(name)|..])
    else
      Cons(s[0], Split(s[1..]))
  }

  /** Puts the split points back between the pieces. */
  function Join(pieces: seq<string>): string
    requires |pieces| % 2 == 1
    decreases |pieces|
  {
    if |pieces| == 1 then pieces[0]
    else pieces[0] + MarkerText(pieces[1]) + Join(pieces[2..])
  }

  lemma JoinCons(c: char, pieces: seq<string>)
    requires |pieces| % 2 == 1
    ensures Join(Cons(c, pieces)) == [c] + Join(pieces)
  {
    ConsParts(c, pieces);
    if |pieces| > 1 {
      OddLessTwo(|pieces|);
      Regroup3([c], pieces[0], MarkerText(pieces[1]), Join(pieces[2..]));
    }
  }

  lemma ConsParts(c: char, pieces: seq<string>)
    requires |pieces| > 0
    ensures |Cons(c, pieces)| == |pieces| && Cons(c, pieces)[0] == [c] + pieces[0]
    ensures |pieces| > 1 ==> Cons(c, pieces)[1] == pieces[1] && Cons(c, pieces)[2..] == pieces[2..]
  {
  }

  lemma OddLessTwo(n: nat)
    requires n % 2 == 1 && n > 1
    ensures (n - 2) % 2 == 1
  {
  }

  lemma Regroup3(a: string, b: string, m: string, j: string)
    ensures (a + b) + m + j == a + (b + m + j)
  {
  }

  lemma JoinMarker(name: string, rest: string, pieces: seq<string>)
    requires |pieces| % 2 == 1 && Join(pieces) == rest
    ensures Join(["", name] + pieces) == MarkerText(name) + rest
  {
    var all := ["", name] + pieces;
    assert all[0] == "" && all[1] == name && all[2..] == pieces;
    EmptyFirst(MarkerText(name), rest);
  }

  lemma EmptyFirst(m: string, r: string)
    ensures "" + m + r == m + r
  {
  }

  /** Splitting loses nothing: joining the pieces back gives the transcript. */
  lemma {:induction false} SplitJoin(s: string)
    ensures Join(Split(s)) == s
    decreases |s|
  {
    if |s| == 0 {
    } else if MarkerAt(s).Some? {
      var name := MarkerAt(s).value;
      var rest := s[|MarkerText(name)|..];
      SplitJoin(rest);
      JoinMarker(name, rest, Split(rest));
      assert s == MarkerText(name) + rest;
    } else {
      SplitJoin(s[1..]);
      JoinCons(s[0], Split(s[1..]));
      assert [s[0]] + s[1..] == s;
    }
  }

  /** Text without a line break holds no split point and stays one piece. */
  lemma {:induction false} SplitPlain(s: string)
    requires NoNewline(s)
    ensures Split(s) == [s]
    decreases |s|
  {
    if |s| > 0 {
      MarkerShape("Ollama");
      MarkerShape("SDForge");
      SplitPlain(s[1..]);
      assert [s[0]] + s[1..] == s;
    }
  }

  /** Glues the last piece of `a` to the first piece of `b`. */
  function Glue(a: seq<string>, b: seq<string>): (r: seq<string>)
    requires |a| > 0 && |b| > 0
  {
    a[..|a| - 1] + [a[|a| - 1] + b[0]] + b[1..]
  }

  /** A split point longer than `x` cannot match across the line break that follows `x`. */
  lemma ShortNoMatch(x: string, z: string, name: string)
    requires IsMarkerName(name) && |x| > 0 && |z| > 0 && z[0] == '\n'
    ensures |x| < |MarkerText(name)| ==> !StartsWith(x + z, MarkerText(name))
  {
    MarkerShape(name);
    var m := MarkerText(name);
    if |x| < |m| {
      assert m[1..][|x| - 1] == m[|x|];
      if |x + z| >= |m| {
        assert (x + z)[..|m|][|x|] == '\n';
      }
    }
  }

  /**
   * No split point can begin inside `x` and run into a line break that follows it, because
   * the split points hold a line break only at their first character.
   */
  lemma NoStraddle(x: string, z: string, name: string)
    requires IsMarkerName(name) && |x| > 0 && |z| > 0 && z[0] == '\n'
    requires StartsWith(x + z, MarkerText(name))
    ensures StartsWith(x, MarkerText(name))
  {
    ShortNoMatch(x, z, name);
    var m := MarkerText(name);
    assert (x + z)[..|m|] == x[..|m|];
  }

  /** A split point at the front of `x` is one at the front of `x + z` too. */
  lemma MarkerAtAppend(x: string, z: string)
    requires |x| > 0 && |z| > 0 && z[0] == '\n'
    ensures MarkerAt(x + z) == MarkerAt(x)
  {
    if StartsWith(x + z, MarkerText("Ollama")) {
      NoStraddle(x, z, "Ollama");
    } else if StartsWith(x + z, MarkerText("SDForge")) {
      NoStraddle(x, z, "SDForge");
    }
    if StartsWith(x, MarkerText("Ollama")) {
      assert (x + z)[..|MarkerText("Ollama")|] == x[..|MarkerText("Ollama")|];
    }
    if StartsWith(x, MarkerText("SDForge")) {
      assert (x + z)[..|MarkerText("SDForge")|] == x[..|MarkerText("SDForge")|];
    }
  }

  lemma GluePrefix(p: seq<string>, a: seq<string>, b: seq<string>)
    requires |a| > 0 && |b| > 0
    ensures Glue(p + a, b) == p + Glue(a, b)
  {
    assert (p + a)[..|p + a| - 1] == p + a[..|a| - 1];
  }

  lemma GlueCons(c: char, a: seq<string>, b: seq<string>)
    requires |a| > 0 && |b| > 0
    ensures Cons(c, Glue(a, b)) == Glue(Cons(c, a), b)
  {
    if |a| == 1 {
      assert [c] + (a[0] + b[0]) == ([c] + a[0]) + b[0];
    } else {
      assert Glue(a, b)[0] == a[0];
    }
  }

  /** One step of `Split` at a split point. */
  lemma SplitUnfoldMarker(s: string)
    requires MarkerAt(s).Some?
    ensures |MarkerText(MarkerAt(s).value)| <= |s|
    ensures Split(s) == ["", MarkerAt(s).value] + Split(s[|MarkerText(MarkerAt(s).value)|..])
  {
  }

  /** One step of `Split` at any other character. */
  lemma SplitUnfoldPlain(s: string)
    requires |s| > 0 && MarkerAt(s).None?
    ensures Split(s) == Cons(s[0], Split(s[1..]))
  {
  }

  lemma GlueMarkerStep(whole: seq<string>, px: seq<string>, rest: seq<string>, pz: seq<string>,
                       restWhole: seq<string>, name: string)
    requires |rest| > 0 && |pz| > 0
    requires whole == ["", name] + restWhole && restWhole == Glue(rest, pz) && px == ["", name] + rest
    ensures whole == Glue(px, pz)
  {
    GluePrefix(["", name], rest, pz);
  }

  lemma GlueConsStep(whole: seq<string>, px: seq<string>, rest: seq<string>, pz: seq<string>,
                     restWhole: seq<string>, c: char)
    requires |rest| > 0 && |pz| > 0
    requires restWhole == Glue(rest, pz) && |restWhole| > 0
    requires whole == Cons(c, restWhole) && px == Cons(c, rest)
    ensures whole == Glue(px, pz)
  {
    GlueCons(c, rest, pz);
  }

  /**
   * Splitting at a line break: the pieces of `x + z` are those of `x` and those of `z`, with
   * the last piece of `x` and the first of `z` run together.
   */
  lemma {:induction false} SplitAt(x: string, z: string)
    requires |z| > 0 && z[0] == '\n'
    ensures Split(x + z) == Glue(Split(x), Split(z))
    decreases |x|
  {
    if |x| == 0 {
      SplitAtEmpty(x, z);
    } else {
      MarkerAtAppend(x, z);
      if MarkerAt(x).Some? {
        MarkerFits(x);
        var rest := x[|MarkerText(MarkerAt(x).value)|..];
        SplitAt(rest, z);
        SplitAtMarkerStep(x, z, rest);
      } else {
        var rest := x[1..];
        SplitAt(rest, z);
        SplitAtPlainStep(x, z, rest);
      }
    }
  }

  lemma SplitAtEmpty(x: string, z: string)
    requires |x| == 0 && |z| > 0
    ensures Split(x + z) == Glue(Split(x), Split(z))
  {
    assert x + z == z;
    assert "" + Split(z)[0] == Split(z)[0];
  }

  lemma MarkerFits(s: string)
    requires MarkerAt(s).Some?
    ensures |MarkerText(MarkerAt(s).value)| <= |s|
  {
  }

  /** `SplitAt` at a split point at the front of `x`, given `SplitAt` for the text after it. */
  lemma SplitAtMarkerStep(x: string, z: string, rest: string)
    requires |z| > 0 && MarkerAt(x).Some? && MarkerAt(x + z) == MarkerAt(x)
    requires |MarkerText(MarkerAt(x).value)| <= |x| && rest == x[|MarkerText(MarkerAt(x).value)|..]
    requires Split(rest + z) == Glue(Split(rest), Split(z))
    ensures Split(x + z) == Glue(Split(x), Split(z))
  {
    var name := MarkerAt(x).value;
    SplitUnfoldMarker(x);
    SplitUnfoldMarker(x + z);
    DropAppend(x, z, |MarkerText(name)|);
    GlueMarkerStep(Split(x + z), Split(x), Split(rest), Split(z), Split(rest + z), name);
  }

  /** `SplitAt` at any other first character of `x`, given `SplitAt` for the rest of `x`. */
  lemma SplitAtPlainStep(x: string, z: string, rest: string)
    requires |z| > 0 && |x| > 0 && MarkerAt(x).None? && MarkerAt(x + z) == MarkerAt(x) && rest == x[1..]
    requires Split(rest + z) == Glue(Split(rest), Split(z))
    ensures Split(x + z) == Glue(Split(x), Split(z))
  {
    SplitUnfoldPlain(x);
    SplitUnfoldPlain(x + z);
    DropAppend(x, z, 1);
    GlueConsStep(Split(x + z), Split(x), Split(rest), Split(z), Split(rest + z), x[0]);
  }

  lemma DropAppend(x: string, z: string, n: nat)
    requires 0 < n <= |x|
    ensures (x + z)[0] == x[0] && (x + z)[n..] == x[n..] + z
  {
  }

  /** The node types of the split points, one per position where one begins. */
  function MarkerKinds(s: string): seq<Kind>
    decreases |s|
  {
    if |s| == 0 then []
    else (if MarkerAt(s).Some? then [KindOf(MarkerAt(s).value)] else []) + MarkerKinds(s[1..])
  }

  /** Positions without a line break start no split point. */
  lemma {:induction false} MarkerKindsSkip(s: string, j: nat)
    requires j <= |s| && NoNewline(s[..j])
    ensures MarkerKinds(s) == MarkerKinds(s[j..])
    decreases j
  {
    if j > 0 {
      MarkerShape("Ollama");
      MarkerShape("SDForge");
      assert s[..j][0] == s[0];
      assert s[1..][..j - 1] == s[..j][1..];
      MarkerKindsSkip(s[1..], j - 1);
      assert s[1..][j - 1..] == s[j..];
    }
  }

  /** The captured names of `pieces` are the node types `kinds`, in order. */
  predicate NamesMatch(pieces: seq<string>, kinds: seq<Kind>) {
    && |pieces| == 2 * |kinds| + 1
    && forall i :: 0 <= i < |kinds| ==> KindOf(pieces[2 * i + 1]) == kinds[i]
  }

  lemma NamesMatchMarker(name: string, pieces: seq<string>, kinds: seq<Kind>)
    requires NamesMatch(pieces, kinds)
    ensures NamesMatch(["", name] + pieces, [KindOf(name)] + kinds)
  {
    var p := ["", name] + pieces;
    var k := [KindOf(name)] + kinds;
    forall i | 1 <= i < |k| ensures KindOf(p[2 * i + 1]) == k[i] {
      assert p[2 * i + 1] == pieces[2 * (i - 1) + 1];
    }
  }

  lemma NamesMatchCons(c: char, pieces: seq<string>, kinds: seq<Kind>)
    requires NamesMatch(pieces, kinds)
    ensures NamesMatch(Cons(c, pieces), kinds)
  {
    var p := Cons(c, pieces);
    forall i | 0 <= i < |kinds| ensures KindOf(p[2 * i + 1]) == kinds[i] {
      assert p[2 * i + 1] == pieces[2 * i + 1];
    }
  }

  /** After a split point, the positions inside it start no other one. */
  lemma MarkerKindsAfterMarker(s: string, name: string)
    requires IsMarkerName(name) && StartsWith(s, MarkerText(name))
    ensures MarkerKinds(s[1..]) == MarkerKinds(s[|MarkerText(name)|..])
  {
    var k := |MarkerText(name)|;
    MarkerShape(name);
    assert s[1..][..k - 1] == MarkerText(name)[1..];
    MarkerKindsSkip(s[1..], k - 1);
    assert s[1..][k - 1..] == s[k..];
  }

  /**
   * Every split point is found, and found once: the pieces number twice the split points plus
   * one, and the captured names follow them in order.
   */
  lemma {:induction false} SplitFindsMarkers(s: string)
    ensures NamesMatch(Split(s), MarkerKinds(s))
    decreases |s|
  {
    if |s| == 0 {
    } else if MarkerAt(s).Some? {
      var name := MarkerAt(s).value;
      MarkerKindsAfterMarker(s, name);
      SplitFindsMarkers(s[|MarkerText(name)|..]);
      NamesMatchMarker(name, Split(s[|MarkerText(name)|..]), MarkerKinds(s[|MarkerText(name)|..]));
    } else {
      SplitFindsMarkers(s[1..]);
      NamesMatchCons(s[0], Split(s[1..]), MarkerKinds(s[1..]));
    }
  }

  /** Each split point adds two pieces: the name it captured and the text after it. */
  lemma MarkerSplits(x: string, name: string, y: string)
    requires IsMarkerName(name)
    ensures Split(x + MarkerText(name) + y) == Split(x) + [name] + Split(y)
  {
    SplitAfterMarker(name, y);
    SplitBefore(x, MarkerText(name), y, name);
  }

  /** Text that splits into an empty piece and a name first keeps the pieces of what precedes it apart. */
  lemma SplitBefore(x: string, m: string, y: string, name: string)
    requires |m| > 0 && m[0] == '\n'
    requires Split(m + y) == ["", name] + Split(y)
    ensures Split(x + m + y) == Split(x) + [name] + Split(y)
  {
    assert x + m + y == x + (m + y);
    SplitAt(x, m + y);
    GlueChain(Split(x), Split(m + y), Split(y), Split(x + (m + y)), name);
  }

  lemma GlueChain(px: seq<string>, pmy: seq<string>, py: seq<string>, whole: seq<string>, name: string)
    requires |px| > 0 && |py| > 0 && pmy == ["", name] + py && whole == Glue(px, pmy)
    ensures whole == px + [name] + py
  {
    GluePrefixEnd(px, name, py);
  }

  /** A split point at the front yields an empty piece, then its name, then the pieces of the rest. */
  lemma SplitAfterMarker(name: string, y: string)
    requires IsMarkerName(name)
    ensures MarkerText(name)[0] == '\n'
    ensures Split(MarkerText(name) + y) == ["", name] + Split(y)
  {
    var m := MarkerText(name);
    MarkerAtMarker(name, y);
    assert (m + y)[|m|..] == y;
  }

  lemma MarkerAtMarker(name: string, y: string)
    requires IsMarkerName(name)
    ensures MarkerAt(MarkerText(name) + y) == Some(name)
  {
    var m := MarkerText(name);
    assert (m + y)[..|m|] == m;
    if name == "SDForge" {
      assert m[11] != MarkerText("Ollama")[11];
    }
  }

  lemma GluePrefixEnd(a: seq<string>, name: string, b: seq<string>)
    requires |a| > 0 && |b| > 0
    ensures Glue(a, ["", name] + b) == a + [name] + b
  {
    assert a[|a| - 1] + "" == a[|a| - 1];
  }

  /** The kind a split point at the front of `s` contributes, if any. */
  function HeadKind(s: string): seq<Kind> {
    if MarkerAt(s).Some? then [KindOf(MarkerAt(s).value)] else []
  }

  lemma MarkerKindsUnfold(s: string)
    requires |s| > 0
    ensures MarkerKinds(s) == HeadKind(s) + MarkerKinds(s[1..])
  {
  }

  lemma KindsStep(whole: seq<Kind>, head: seq<Kind>, restWhole: seq<Kind>, ka: seq<Kind>, rest: seq<Kind>, kb: seq<Kind>)
    requires whole == head + restWhole && restWhole == rest + kb && ka == head + rest
    ensures whole == ka + kb
  {
  }

  /** Split points accumulate over text joined at a line break. */
  lemma {:induction false} MarkerKindsAppend(a: string, b: string)
    requires |b| > 0 && b[0] == '\n'
    ensures MarkerKinds(a + b) == MarkerKinds(a) + MarkerKinds(b)
    decreases |a|
  {
    if |a| == 0 {
      assert a + b == b;
    } else {
      MarkerAtAppend(a, b);
      MarkerKindsUnfold(a);
      MarkerKindsUnfold(a + b);
      var rest := a[1..];
      assert (a + b)[1..] == rest + b;
      MarkerKindsAppend(rest, b);
      KindsStep(MarkerKinds(a + b), HeadKind(a), MarkerKinds(rest + b), MarkerKinds(a), MarkerKinds(rest), MarkerKinds(b));
    }
  }

  // ---- Sections ----

  /** One displayed section: a title, its text and the node type it came from. */
  datatype Section = Section(title: string, content: string, kind: Kind)

  /** The class `[a-zA-Z0-9-_]`. */
  predicate IsIdChar(c: char) {
    ('a' <= c <= 'z') || ('A' <= c <= 'Z') || ('0' <= c <= '9') || c == '-' || c == '_'
  }

  predicate AllIdChars(s: string) {
    forall i :: 0 <= i < |s| ==> IsIdChar(s[i])
  }

  /** What `/^([a-zA-Z0-9-_]+)/` captures, or "" when it does not match. */
  function IdRun(s: string): string
    decreases |s|
  {
    if |s| > 0 && IsIdChar(s[0]) then [s[0]] + IdRun(s[1..]) else ""
  }

  /** The captured id is the longest leading run of id characters. */
  lemma {:induction false} IdRunLongest(s: string)
    ensures StartsWith(s, IdRun(s)) && AllIdChars(IdRun(s))
    ensures |IdRun(s)| < |s| ==> !IsIdChar(s[|IdRun(s)|])
    decreases |s|
  {
    if |s| > 0 && IsIdChar(s[0]) {
      IdRunLongest(s[1..]);
      var r := IdRun(s[1..]);
      assert ([s[0]] + r)[1..] == r;
      assert s[..|r| + 1] == [s[0]] + s[1..][..|r|];
    }
  }

  /** The id shown in a section title. */
  function NodeIdOf(content: string): string {
    var run := IdRun(content);
    if run == "" then "unknown" else run
  }

  /** An id written in front of a character outside the class is read back exactly. */
  lemma {:induction false} IdRunStops(id: string, rest: string)
    requires AllIdChars(id) && |rest| > 0 && !IsIdChar(rest[0])
    ensures IdRun(id + rest) == id
    decreases |id|
  {
    if |id| > 0 {
      assert (id + rest)[1..] == id[1..] + rest;
      IdRunStops(id[1..], rest);
      assert [id[0]] + id[1..] == id;
    } else {
      assert id + rest == rest;
    }
  }

  /** The title of a section: the captured node type and the id read from its text. */
  function Title(name: string, content: string): string {
    name + " Node: " + NodeIdOf(content)
  }

  /** The shown text of a section: the completion line removed, then trimmed. */
  function Cleaned(content: string): string {
    Trim(RemoveAll(content, Workflow.Sentinel()))
  }

  /** The section for one split point: its captured name and the text that follows it. */
  function NodeSection(name: string, content: string): Section {
    Section(Title(name, content), Cleaned(content), KindOf(name))
  }

  /** The "Initialization" section for the text before the first split point, if it is not blank. */
  function Preamble(first: string): seq<Section> {
    if Trim(first) != "" then [Section("Initialization", Trim(first), Other)] else []
  }

  /**
   * The "Initialization" section is there exactly when the text before the first split point
   * has more than white space, and it shows that text trimmed.
   */
  lemma PreambleShown(first: string)
    ensures |Preamble(first)| == 1 <==> !AllSpace(first)
    ensures |Preamble(first)| <= 1
    ensures forall sec :: sec in Preamble(first) ==> sec.kind == Other && sec.content == Trim(first) && sec.content != ""
  {
    TrimBlank(first);
  }

  /**
   * The sections of the first `n` split points of `pieces`, in order, each made by `render`
   * from the captured name and the text after it.
   */
  function NodeSections(pieces: seq<string>, n: nat, render: (string, string) -> Section): (r: seq<Section>)
    requires 2 * n + 1 <= |pieces|
    ensures |r| == n
  {
    if n == 0 then []
    else NodeSections(pieces, n - 1, render) + [render(pieces[2 * (n - 1) + 1], pieces[2 * (n - 1) + 2])]
  }

  /** Section `i` comes from split point `i`: the captured name at `2i + 1` and the text after it. */
  lemma {:induction false} NodeSectionsAt(pieces: seq<string>, n: nat, render: (string, string) -> Section, i: nat)
    requires 2 * n + 1 <= |pieces| && i < n
    ensures NodeSections(pieces, n, render)[i] == render(pieces[2 * i + 1], pieces[2 * i + 2])
  {
    if i < n - 1 {
      NodeSectionsAt(pieces, n - 1, render, i);
    }
  }

  /** `parseStreamingOutput`: an empty transcript has no sections. */
  function Parse(output: string): (r: seq<Section>)
    ensures output == "" ==> r == []
  {
    if output == "" then []
    else
      var pieces := Split(output);
      Preamble(pieces[0]) + NodeSections(pieces, |pieces| / 2, NodeSection)
  }

  /** `parseStreamingOutput`: split the transcript, then build the sections from the pieces. */
  method ParseStreamingOutput(output: string) returns (sections: seq<Section>)
    ensures sections == Parse(output)
  {
    if output == "" {
      return [];
    }
    var pieces := Split(output);
    sections := SectionsOf(pieces);
  }

  /** The loop of `parseStreamingOutput`, stepping over the pieces two at a time. */
  method SectionsOf(pieces: seq<string>) returns (sections: seq<Section>)
    requires |pieces| % 2 == 1
    ensures sections == Preamble(pieces[0]) + NodeSections(pieces, |pieces| / 2, NodeSection)
  {
    var pairs := |pieces| / 2;
    sections := PreambleOf(pieces[0]);
    ghost var pre := sections;
    var i := 1;
    var k := 0;
    while i < |pieces|
      invariant 0 <= k <= pairs && i == 2 * k + 1 && |pieces| == 2 * pairs + 1
      invariant sections == pre + NodeSections(pieces, k, NodeSection)
    {
      sections := AppendSection(sections, pre, pieces, k);
      i := i + 2;
      k := k + 1;
    }
    assert k == pairs;
  }

  /** The "Initialization" section, when the text before the first split point is not blank. */
  method PreambleOf(first: string) returns (sections: seq<Section>)
    ensures sections == Preamble(first)
  {
    sections := [];
    var trimmed := Trim(first);
    if trimmed != "" {
      sections := sections + [Section("Initialization", trimmed, Other)];
    }
  }

  /**
   * One turn of the loop of `parseStreamingOutput`: the id, cleaned text and title of the
   * section for split point `k`, which goes at the end.
   */
  method AppendSection(sections: seq<Section>, ghost pre: seq<Section>, pieces: seq<string>, k: nat)
    returns (r: seq<Section>)
    requires 2 * k + 2 < |pieces|
    requires sections == pre + NodeSections(pieces, k, NodeSection)
    ensures r == pre + NodeSections(pieces, k + 1, NodeSection)
  {
    var name, content := pieces[2 * k + 1], pieces[2 * k + 2];
    var run := IdRun(content);
    var nodeId := if run == "" then "unknown" else run;
    var clean := RemoveAll(content, Workflow.Sentinel());
    var section := Section(name + " Node: " + nodeId, Trim(clean), KindOf(name));
    SectionsGrow(sections, pre, pieces, k, NodeSection, section);
    r := sections + [section];
  }

  lemma NodeSectionsStep(pieces: seq<string>, k: nat, render: (string, string) -> Section)
    requires 2 * k + 2 < |pieces|
    ensures NodeSections(pieces, k + 1, render) == NodeSections(pieces, k, render) + [render(pieces[2 * k + 1], pieces[2 * k + 2])]
  {
  }

  /** The loop invariant of `SectionsOf` survives appending the next section. */
  lemma SectionsGrow(sections: seq<Section>, pre: seq<Section>, pieces: seq<string>, k: nat,
                     render: (string, string) -> Section, section: Section)
    requires 2 * k + 2 < |pieces|
    requires sections == pre + NodeSections(pieces, k, render)
    requires section == render(pieces[2 * k + 1], pieces[2 * k + 2])
    ensures sections + [section] == pre + NodeSections(pieces, k + 1, render)
  {
    NodeSectionsStep(pieces, k, render);
    assert (pre + NodeSections(pieces, k, render)) + [section] == pre + (NodeSections(pieces, k, render) + [section]);
  }

  /**
   * One section per split point, in the order of the split points, after an optional
   * "Initialization" section.
   */
  lemma ParseFollowsMarkers(s: string)
    requires s != ""
    ensures |Parse(s)| == |Preamble(Split(s)[0])| + |MarkerKinds(s)|
    ensures forall i :: 0 <= i < |MarkerKinds(s)| ==> Parse(s)[|Preamble(Split(s)[0])| + i].kind == MarkerKinds(s)[i]
  {
    SplitFindsMarkers(s);
    var pre := Preamble(Split(s)[0]);
    forall i | 0 <= i < |MarkerKinds(s)| ensures Parse(s)[|pre| + i].kind == MarkerKinds(s)[i] {
      assert Parse(s)[|pre| + i] == NodeSections(Split(s), |Split(s)| / 2, NodeSection)[i];
      NodeSectionsAt(Split(s), |Split(s)| / 2, NodeSection, i);
    }
  }

  /** The completion line cannot overlap itself. */
  lemma SentinelBorderless()
    ensures Borderless(Workflow.Sentinel())
  {
    var pat := Workflow.Sentinel();
    assert NoNewline(pat[2..]);
    forall d | 0 < d < |pat| ensures !StartsWith(pat, pat[d..]) {
      if d == 1 {
        assert pat[..|pat| - 1][1] != pat[1..][1];
      } else {
        assert pat[2..][d - 2] == pat[d];
        assert pat[..|pat| - d][0] != pat[d..][0];
      }
    }
  }

  /** A section that ends with the completion line shows the text before it, trimmed. */
  lemma SentinelDropped(name: string, body: string)
    requires !Occurs(body, Workflow.Sentinel())
    ensures Cleaned(body + Workflow.Sentinel()) == Trim(body)
  {
    SentinelBorderless();
    RemoveAllTrailing(body, Workflow.Sentinel());
  }

  /** An id followed by "..." holds no line break. */
  lemma IdLinePlain(id: string)
    requires AllIdChars(id)
    ensures NoNewline(id + "...")
  {
    var head := id + "...";
    forall i | 0 <= i < |head| ensures head[i] != '\n' {
      if i < |id| {
        assert head[i] == id[i];
      }
    }
  }

  /** The text after a header's split point runs, as one piece, from the node id to the next line break. */
  lemma FirstPiece(id: string, y: string)
    requires AllIdChars(id)
    ensures Split(id + "...\n" + y)[0] == id + ("..." + Split("\n" + y)[0])
  {
    var head := id + "...";
    IdLinePlain(id);
    SplitPlain(head);
    assert id + "...\n" + y == head + ("\n" + y);
    SplitAt(head, "\n" + y);
    GlueSingle(Split(head + ("\n" + y)), Split(head), id, Split("\n" + y));
  }

  lemma GlueSingle(whole: seq<string>, ph: seq<string>, id: string, b: seq<string>)
    requires |b| > 0 && ph == [id + "..."] && whole == Glue(ph, b)
    ensures whole[0] == id + ("..." + b[0])
  {
  }

  /** The id that follows a header's split point is read back from the section text. */
  lemma FirstPieceId(id: string, y: string)
    requires AllIdChars(id) && |id| > 0
    ensures NodeIdOf(Split(id + "...\n" + y)[0]) == id
  {
    FirstPiece(id, y);
    IdRunStops(id, "..." + Split("\n" + y)[0]);
  }

  /** The header a node adapter writes is a split point followed by the node id and "...". */
  lemma HeaderSplits(x: string, name: string, id: string, y: string)
    requires IsMarkerName(name) && AllIdChars(id) && |id| > 0
    ensures Split(x + MarkerText(name) + (id + "...\n" + y)) == Split(x) + [name] + Split(id + "...\n" + y)
    ensures NodeIdOf(Split(id + "...\n" + y)[0]) == id
  {
    MarkerSplits(x, name, id + "...\n" + y);
    FirstPieceId(id, y);
  }

  lemma OllamaHeaderText(id: string)
    ensures Ollama.Header(id) == MarkerText("Ollama") + id + "...\n"
  {
  }

  lemma SDForgeHeaderText(id: string)
    ensures SD.Header(id) == MarkerText("SDForge") + id + "...\n"
  {
  }

  /** Regroups a header `h`, a split point `m` followed by the node id, as the split point and the rest. */
  lemma Regroup(x: string, h: string, m: string, id: string, y: string)
    requires h == m + id + "...\n"
    ensures x + h + y == x + m + (id + "...\n" + y)
  {
  }

  /** The Ollama adapter's header starts an "Ollama" section titled with the node id. */
  lemma OllamaHeaderSection(x: string, id: string, y: string)
    requires AllIdChars(id) && |id| > 0
    ensures Split(x + Ollama.Header(id) + y) == Split(x) + ["Ollama"] + Split(id + "...\n" + y)
    ensures Title("Ollama", Split(id + "...\n" + y)[0]) == "Ollama Node: " + id
  {
    OllamaHeaderText(id);
    Regroup(x, Ollama.Header(id), MarkerText("Ollama"), id, y);
    HeaderSplits(x, "Ollama", id, y);
  }

  /** The SDForge adapter's header starts an "SDForge" section titled with the node id. */
  lemma SDForgeHeaderSection(x: string, id: string, y: string)
    requires AllIdChars(id) && |id| > 0
    ensures Split(x + SD.Header(id) + y) == Split(x) + ["SDForge"] + Split(id + "...\n" + y)
    ensures Title("SDForge", Split(id + "...\n" + y)[0]) == "SDForge Node: " + id
  {
    SDForgeHeaderText(id);
    Regroup(x, SD.Header(id), MarkerText("SDForge"), id, y);
    HeaderSplits(x, "SDForge", id, y);
  }

  /** The text of the image-to-image header after its leading line break, which holds none. */
  function ImageToImageBody(id: string): string {
    "Executing SD Image to Image Node: " + id + "..."
  }

  lemma ImageToImageHeaderText(id: string)
    ensures I2I.Header(id) == "\n" + ImageToImageBody(id) + "\n"
  {
  }

  lemma ImageToImageBodyPlain(id: string)
    requires NoNewline(id)
    ensures NoNewline(ImageToImageBody(id))
  {
    var body := ImageToImageBody(id);
    forall i | 0 <= i < |body| ensures body[i] != '\n' {
      if 34 <= i < 34 + |id| {
        assert body[i] == id[i - 34];
      }
    }
  }

  /** "\nExecuting SD Image" is neither split point's beginning. */
  lemma ImageToImageNotMarker(id: string, rest: string)
    ensures MarkerAt("\n" + ImageToImageBody(id) + rest) == None
  {
    var t := "\n" + ImageToImageBody(id) + rest;
    assert t[11] == 'S' && t[13] == ' ';
    assert MarkerText("Ollama")[11] == 'O';
    assert MarkerText("SDForge")[13] == 'F';
  }

  /** After its leading line break, the image-to-image header holds no split point. */
  lemma ImageToImageTail(id: string, y: string)
    requires NoNewline(id)
    ensures MarkerKinds("\n" + ImageToImageBody(id) + ("\n" + y)) == MarkerKinds("\n" + y)
  {
    var body := ImageToImageBody(id);
    var tail := body + ("\n" + y);
    assert "\n" + body + ("\n" + y) == "\n" + tail;
    ImageToImageNotMarker(id, "\n" + y);
    assert ("\n" + tail)[1..] == tail;
    ImageToImageBodyPlain(id);
    assert tail[..|body|] == body;
    MarkerKindsSkip(tail, |body|);
    assert tail[|body|..] == "\n" + y;
  }

  /** The image-to-image adapter's header is not a split point: it adds no section. */
  lemma ImageToImageHeaderNoSection(x: string, id: string, y: string)
    requires NoNewline(id)
    ensures MarkerKinds(x + I2I.Header(id) + y) == MarkerKinds(x) + MarkerKinds("\n" + y)
  {
    var h := "\n" + ImageToImageBody(id) + ("\n" + y);
    ImageToImageHeaderText(id);
    assert x + I2I.Header(id) + y == x + h;
    MarkerKindsAppend(x, h);
    ImageToImageTail(id, y);
  }

  // ---- Saved outputs ----

  /** A saved run: its transcript and final image, under an id. */
  datatype SavedOutput = SavedOutput(id: string, name: string, timestamp: int, output: string, image: Option<string>)

  /** `handleDeleteOutput`'s filter on the id. */
  function DeleteById(outputs: seq<SavedOutput>, id: string): seq<SavedOutput>
    decreases |outputs|
  {
    if outputs == [] then []
    else (if outputs[0].id == id then [] else [outputs[0]]) + DeleteById(outputs[1..], id)
  }

  /** Every entry with the id goes, and every other entry stays. */
  lemma {:induction false} DeleteByIdKeeps(outputs: seq<SavedOutput>, id: string)
    ensures forall o :: o in DeleteById(outputs, id) <==> o in outputs && o.id != id
    decreases |outputs|
  {
    if outputs != [] {
      DeleteByIdKeeps(outputs[1..], id);
      assert outputs == [outputs[0]] + outputs[1..];
    }
  }

  /** The filter works entry by entry, so the kept entries stay in their original order. */
  lemma {:induction false} DeleteDistributes(a: seq<SavedOutput>, b: seq<SavedOutput>, id: string)
    ensures DeleteById(a + b, id) == DeleteById(a, id) + DeleteById(b, id)
    decreases |a|
  {
    if a != [] {
      assert (a + b)[1..] == a[1..] + b;
      DeleteDistributes(a[1..], b, id);
    } else {
      assert a + b == b;
    }
  }

  /** Deleting an id nobody has changes nothing. */
  lemma {:induction false} DeleteAbsent(outputs: seq<SavedOutput>, id: string)
    requires forall o :: o in outputs ==> o.id != id
    ensures DeleteById(outputs, id) == outputs
    decreases |outputs|
  {
    if outputs != [] {
      assert outputs[0] in outputs;
      assert forall o :: o in outputs[1..] ==> o in outputs;
      DeleteAbsent(outputs[1..], id);
      assert [outputs[0]] + outputs[1..] == outputs;
    }
  }

  /** Deleting twice is deleting once. */
  lemma DeleteIdempotent(outputs: seq<SavedOutput>, id: string)
    ensures DeleteById(DeleteById(outputs, id), id) == DeleteById(outputs, id)
  {
    DeleteByIdKeeps(outputs, id);
    DeleteAbsent(DeleteById(outputs, id), id);
  }
}
