/** The report view (components/ContentDisplay.tsx): the line-based
    formatter that turns a Markdown-like report into headings, bullet lists
    and paragraphs; the choice of the view shown; the visibility of the
    language toggle; and the list of cited sources. */
module ContentDisplay {

  import opened Wrappers
  import opened Types
  import opened Strings


  /** One rendered element of a report. */
  datatype Block = H2(text: string) | H3(text: string) | List(items: seq<string>) | Para(text: string)

  /** What one input line is, read off its trimmed text. */
  datatype LineKind =
    | HeadingThree(text: string)
    | HeadingTwo(text: string)
    | BulletItem(item: string)
    | BlankLine
    | TextLine(text: string)

  /** A trimmed line that goes on after a whitespace character has a
      non-empty remainder after it. */
  lemma TrimmedRemainder(t: string, n: nat)
    requires IsTrimmed(t) && 1 <= n <= |t| && IsWhitespace(t[n - 1])
    ensures t[n..] != [] && !IsWhitespace(t[|t| - 1])
  {
  }

  /** A bullet line's text: the marker and the whitespace after it removed,
      which leaves a non-empty trimmed item. */
  function BulletText(t: string): (item: string)
    requires IsTrimmed(t) && 2 <= |t| && t[1] == ' '
    ensures item != [] && IsTrimmed(item) && |item| <= |t| - 2
  {
    TrimmedRemainder(t, 2);
    var item := TrimStart(t[1..]);
    assert item[|item| - 1] == t[|t| - 1];
    item
  }

  /** The tests of one formatter iteration on a trimmed line, in their
      order: `"### "` before `"## "`, then the two bullet markers, then the
      empty line. */
  function ClassifyTrimmed(t: string): (k: LineKind)
    requires IsTrimmed(t)
    ensures k.HeadingThree? ==> k.text != []
    ensures k.HeadingTwo? ==> k.text != []
    ensures k.BulletItem? ==> k.item != [] && IsTrimmed(k.item)
    ensures k.TextLine? ==> k.text != [] && IsTrimmed(k.text)
    ensures k == BlankLine <==> t == []
  {
    if StartsWith(t, "### ") then
      assert t[3] == ' ';
      TrimmedRemainder(t, 4);
      HeadingThree(t[4..])
    else if StartsWith(t, "## ") then
      assert t[2] == ' ';
      TrimmedRemainder(t, 3);
      HeadingTwo(t[3..])
    else if StartsWith(t, "* ") || StartsWith(t, "- ") then BulletItem(BulletText(t))
    else if t == [] then BlankLine
    else TextLine(t)
  }

  /** What a line is, read off its trimmed text. */
  function Classify(line: string): (k: LineKind)
    ensures k.HeadingThree? ==> k.text != []
    ensures k.HeadingTwo? ==> k.text != []
    ensures k.BulletItem? ==> k.item != [] && IsTrimmed(k.item)
    ensures k.TextLine? ==> k.text != [] && IsTrimmed(k.text)
    ensures k == BlankLine <==> Trim(line) == []
  {
    ClassifyTrimmed(Trim(line))
  }

  /** `f` applied to every element, in order. */
  function Map<A, B>(f: A -> B, xs: seq<A>): (ys: seq<B>)
    ensures |ys| == |xs|
  {
    if xs == [] then [] else [f(xs[0])] + Map(f, xs[1..])
  }

  lemma {:induction false} MapAt<A, B>(f: A -> B, xs: seq<A>, i: nat)
    requires i < |xs|
    ensures Map(f, xs)[i] == f(xs[i])
  {
    if i > 0 {
      MapAt(f, xs[1..], i - 1);
    }
  }

  lemma {:induction false} MapAppend<A, B>(f: A -> B, xs: seq<A>, ys: seq<A>)
    ensures Map(f, xs + ys) == Map(f, xs) + Map(f, ys)
  {
    if xs == [] {
      assert xs + ys == ys;
    } else {
      assert (xs + ys)[1..] == xs[1..] + ys;
      MapAppend(f, xs[1..], ys);
    }
  }

  /** The kinds of the lines, one per line. */
  function Classified(lines: seq<string>): (ks: seq<LineKind>)
    ensures |ks| == |lines|
  {
    Map(Classify, lines)
  }

  /** The kind of each line is its own classification. */
  lemma ClassifiedAt(lines: seq<string>, i: nat)
    requires i < |lines|
    ensures Classified(lines)[i] == Classify(lines[i])
  {
    MapAt(Classify, lines, i);
  }

  lemma ClassifiedAppend(a: seq<string>, b: seq<string>)
    ensures Classified(a + b) == Classified(a) + Classified(b)
  {
    MapAppend(Classify, a, b);
  }

  /** The items of the run of bullet lines at the front. */
  function LeadingItems(ks: seq<LineKind>): (items: seq<string>)
    ensures |items| <= |ks|
    ensures ks != [] && ks[0].BulletItem? ==> |items| >= 1
    ensures forall i :: 0 <= i < |items| ==> ks[i] == BulletItem(items[i])
    ensures |items| < |ks| ==> !ks[|items|].BulletItem?
  {
    if ks != [] && ks[0].BulletItem? then [ks[0].item] + LeadingItems(ks[1..]) else []
  }

  /** The reference reading of a report: each maximal run of consecutive
      bullet lines is one list, headings and text lines are one block each,
      and blank lines produce nothing. */
  function Render(ks: seq<LineKind>): (blocks: seq<Block>)
    ensures |blocks| <= |ks|
    ensures forall i :: 0 <= i < |blocks| && blocks[i].List? ==> blocks[i].items != []
    decreases |ks|
  {
    if ks == [] then []
    else match ks[0]
      case BulletItem(_) =>
        var items := LeadingItems(ks);
        [List(items)] + Render(ks[|items|..])
      case HeadingThree(t) => [H3(t)] + Render(ks[1..])
      case HeadingTwo(t) => [H2(t)] + Render(ks[1..])
      case BlankLine => Render(ks[1..])
      case TextLine(t) => [Para(t)] + Render(ks[1..])
  }

  /** The blocks a report text is formatted into. */
  function Format(text: string): (blocks: seq<Block>)
    ensures |blocks| <= |Split(text)|
    ensures forall i :: 0 <= i < |blocks| && blocks[i].List? ==> blocks[i].items != []
  {
    Render(Classified(Split(text)))
  }

  /** What is still to come when `pending` bullet items have been collected
      and `rest` is the rest of the lines: the collected items run on into
      the bullets at the front of `rest`. */
  function Pending(pending: seq<string>, rest: seq<LineKind>): seq<Block> {
    if pending == [] then Render(rest)
    else
      var items := LeadingItems(rest);
      [List(pending + items)] + Render(rest[|items|..])
  }

  /** The block a heading, blank or text line stands for on its own. */
  function Emitted(k: LineKind): seq<Block>
    requires !k.BulletItem?
  {
    match k
    case HeadingThree(t) => [H3(t)]
    case HeadingTwo(t) => [H2(t)]
    case BlankLine => []
    case TextLine(t) => [Para(t)]
  }

  /** The list block a flush emits: none when nothing is pending. */
  function Flushed(pending: seq<string>): seq<Block> {
    if pending == [] then [] else [List(pending)]
  }

  /** `flushList`: emits the collected items as one list when there are any,
      and empties the collection either way. */
  method FlushList(elements: seq<Block>, listItems: seq<string>)
    returns (elements': seq<Block>, listItems': seq<string>)
    ensures listItems' == []
    ensures elements' == elements + Flushed(listItems)
  {
    elements' := elements;
    if |listItems| > 0 {
      elements' := elements' + [List(listItems)];
    } else {
      assert elements + [] == elements;
    }
    listItems' := [];
  }

  /** A bullet line adds its item to what is pending. */
  lemma PendingBullet(pending: seq<string>, item: string, rest: seq<LineKind>)
    ensures Pending(pending, [BulletItem(item)] + rest) == Pending(pending + [item], rest)
  {
    var ks := [BulletItem(item)] + rest;
    var items := LeadingItems(rest);
    assert ks[1..] == rest;
    assert LeadingItems(ks) == [item] + items;
    assert ks[|LeadingItems(ks)|..] == rest[|items|..];
    if pending == [] {
      assert [] + [item] == [item];
    } else {
      assert pending + [item] + items == pending + ([item] + items);
    }
  }

  /** Any other line ends what is pending, which is flushed first. */
  lemma PendingOther(pending: seq<string>, k: LineKind, rest: seq<LineKind>)
    requires !k.BulletItem?
    ensures Pending(pending, [k] + rest) == Flushed(pending) + Emitted(k) + Render(rest)
  {
    var ks := [k] + rest;
    RenderCons(k, rest);
    assert LeadingItems(ks) == [] by { assert ks[0] == k; }
    if pending == [] {
      assert Flushed(pending) + Emitted(k) == Emitted(k);
    } else {
      assert ks[0..] == ks && pending + [] == pending;
      AppendAssoc([List(pending)], Emitted(k), Render(rest));
    }
  }

  /** The lines from `i` on are line `i` followed by those after it; exists
      only to split a proof step. */
  lemma DropOne<T>(xs: seq<T>, i: nat)
    requires i < |xs|
    ensures xs[i..] == [xs[i]] + xs[i + 1..]
  {
  }

  /** The actions of the formatter's loop for one line, once `Classify` has
      run its tests: a heading, a blank line or a paragraph flushes the
      pending list and then emits what the line is; a bullet line only adds
      its item to the pending list. */
  method FormatLine(elements: seq<Block>, listItems: seq<string>, kind: LineKind)
    returns (elements': seq<Block>, listItems': seq<string>)
    ensures kind.BulletItem? ==> elements' == elements && listItems' == listItems + [kind.item]
    ensures !kind.BulletItem? ==> elements' == elements + Flushed(listItems) + Emitted(kind) && listItems' == []
  {
    match kind
    case HeadingThree(text) =>
      elements', listItems' := FlushList(elements, listItems);
      elements' := elements' + [H3(text)];
    case HeadingTwo(text) =>
      elements', listItems' := FlushList(elements, listItems);
      elements' := elements' + [H2(text)];
    case BulletItem(item) =>
      elements', listItems' := elements, listItems + [item];
    case BlankLine =>
      elements', listItems' := FlushList(elements, listItems);
      assert elements' + [] == elements';
    case TextLine(text) =>
      elements', listItems' := FlushList(elements, listItems);
      elements' := elements' + [Para(text)];
  }

  /** Once the lines are exhausted, only the final flush remains. */
  lemma PendingAtEnd(pending: seq<string>)
    ensures Pending(pending, []) == Flushed(pending)
  {
    var empty: seq<LineKind> := [];
    assert LeadingItems(empty) == [] && empty[0..] == empty;
    assert pending + [] == pending;
  }

  /** What one pass of the loop body does keeps what is emitted plus what
      is pending equal to the reference reading. */
  lemma FormatStep(elements: seq<Block>, pending: seq<string>, k: LineKind, rest: seq<LineKind>,
                   elements': seq<Block>, pending': seq<string>)
    requires k.BulletItem? ==> elements' == elements && pending' == pending + [k.item]
    requires !k.BulletItem? ==> elements' == elements + Flushed(pending) + Emitted(k) && pending' == []
    ensures elements + Pending(pending, [k] + rest) == elements' + Pending(pending', rest)
  {
    if k.BulletItem? {
      PendingBullet(pending, k.item, rest);
    } else {
      PendingOther(pending, k, rest);
      AppendAssoc(elements, Flushed(pending) + Emitted(k), Render(rest));
      AppendAssoc(elements, Flushed(pending), Emitted(k));
    }
  }

  /** `renderFormattedText`: one pass over the lines with a pending list of
      bullet items, flushed before every heading, blank line and paragraph
      and once more at the end. */
  method RenderFormattedText(text: string) returns (elements: seq<Block>)
    ensures elements == Format(text)
  {
    var lines := Split(text);
    ghost var kinds := Classified(lines);
    elements := [];
    var listItems: seq<string> := [];
    assert kinds[0..] == kinds;
    for i := 0 to |lines|
      invariant Render(kinds) == elements + Pending(listItems, kinds[i..])
    {
      DropOne(kinds, i);
      ClassifiedAt(lines, i);
      var kind := Classify(lines[i]);
      var elements', listItems' := FormatLine(elements, listItems, kind);
      FormatStep(elements, listItems, kinds[i], kinds[i + 1..], elements', listItems');
      elements, listItems := elements', listItems';
    }
    assert kinds[|lines|..] == [];
    PendingAtEnd(listItems);
    elements, listItems := FlushList(elements, listItems);
  }

  // Properties of the reference reading.

  /** A line is blank exactly when it is all whitespace. */
  lemma BlankIffWhitespace(line: string)
    ensures Classify(line) == BlankLine <==> AllWhitespace(line)
  {
  }

  /** The `"### "` test runs first, so such a line is an H3 holding the rest
      of the trimmed line and never an H2. */
  lemma HeadingThreeFirst(line: string)
    requires StartsWith(Trim(line), "### ")
    ensures Classify(line) == HeadingThree(Trim(line)[4..])
    ensures !Classify(line).HeadingTwo?
  {
  }

  /** A trimmed line that starts with no heading or bullet marker is a
      paragraph of itself. */
  lemma PlainLine(t: string)
    requires IsTrimmed(t) && t != []
    requires !StartsWith(t, "### ") && !StartsWith(t, "## ")
    requires !StartsWith(t, "* ") && !StartsWith(t, "- ")
    ensures Classify(t) == TextLine(t)
  {
    ClassifyTrimmedLine(t);
  }

  /** `"##"` without a following space is a plain paragraph. */
  lemma BareHashesNotHeading()
    ensures Classify("##") == TextLine("##")
  {
    var line := "##";
    assert line[0] == '#' && line[1] == '#' && |line| == 2;
    PlainLine(line);
  }

  /** A four-hash heading is a plain paragraph. */
  lemma FourHashesNotHeading()
    ensures Classify("#### x") == TextLine("#### x")
  {
    var line := "#### x";
    assert line[0] == '#' && line[2] == '#' && line[3] == '#' && line[5] == 'x';
    PlainLine(line);
  }

  /** A line with no whitespace at either end is classified as it stands. */
  lemma ClassifyTrimmedLine(line: string)
    requires IsTrimmed(line)
    ensures Classify(line) == ClassifyTrimmed(line)
  {
    TrimTrimmed(line);
  }

  /** A trimmed line starting with either bullet marker is a bullet, its
      item being the rest of the line without the marker and the whitespace
      after it. */
  lemma BulletLine(t: string)
    requires IsTrimmed(t) && (StartsWith(t, "* ") || StartsWith(t, "- "))
    ensures ClassifyTrimmed(t) == BulletItem(TrimStart(t[1..]))
  {
    assert t[0] == '*' || t[0] == '-';
    assert !StartsWith(t, "### ") && !StartsWith(t, "## ");
  }

  /** Two known leading characters make a two-character prefix; exists only
      to split a proof step. */
  lemma StartsWithPair(s: string, a: char, b: char)
    requires |s| >= 2 && s[0] == a && s[1] == b
    ensures StartsWith(s, [a, b])
  {
  }

  /** A marker, a space and a trimmed item make a trimmed bullet line. */
  lemma MarkedLine(marker: char, item: string)
    requires marker == '*' || marker == '-'
    requires item != [] && IsTrimmed(item)
    ensures var line := [marker] + (" " + item);
            && IsTrimmed(line) && StartsWith(line, [marker, ' ']) && line[1..] == " " + item
  {
    var line := [marker] + (" " + item);
    assert line[0] == marker && line[1] == ' ';
    assert line[|line| - 1] == item[|item| - 1];
    StartsWithPair(line, marker, ' ');
  }

  /** A bullet line written as a marker, a space and a trimmed item is
      read back as that item. */
  lemma BulletRoundTrip(marker: char, item: string)
    requires marker == '*' || marker == '-'
    requires item != [] && IsTrimmed(item)
    ensures Classify([marker] + (" " + item)) == BulletItem(item)
  {
    var line := [marker] + (" " + item);
    MarkedLine(marker, item);
    TrimStartSpace(item);
    ClassifyTrimmedLine(line);
    BulletLine(line);
  }

  /** The items of all bullet lines, in order. */
  function BulletItems(ks: seq<LineKind>): seq<string> {
    if ks == [] then [] else (if ks[0].BulletItem? then [ks[0].item] else []) + BulletItems(ks[1..])
  }

  /** The items of all list blocks, in order. */
  function ListedItems(blocks: seq<Block>): seq<string> {
    if blocks == [] then [] else (if blocks[0].List? then blocks[0].items else []) + ListedItems(blocks[1..])
  }

  /** The blocks that heading and text lines stand for, in order. */
  function OtherBlocks(ks: seq<LineKind>): seq<Block> {
    if ks == [] then [] else (if ks[0].BulletItem? then [] else Emitted(ks[0])) + OtherBlocks(ks[1..])
  }

  /** The blocks that are not lists, in order. */
  function NonListBlocks(blocks: seq<Block>): seq<Block> {
    if blocks == [] then [] else (if blocks[0].List? then [] else [blocks[0]]) + NonListBlocks(blocks[1..])
  }

  /** Dropping one element and then `n` is dropping `n + 1`; exists only to
      split a proof step. */
  lemma TailSlice(ks: seq<LineKind>, n: nat)
    requires n < |ks|
    ensures ks[1..][n..] == ks[n + 1..]
  {
  }

  /** The run of bullets at the front contributes its items and no other
      block. */
  lemma {:induction false} LeadingRun(ks: seq<LineKind>)
    ensures BulletItems(ks) == LeadingItems(ks) + BulletItems(ks[|LeadingItems(ks)|..])
    ensures OtherBlocks(ks) == OtherBlocks(ks[|LeadingItems(ks)|..])
  {
    if ks != [] && ks[0].BulletItem? {
      LeadingRun(ks[1..]);
      var n := |LeadingItems(ks[1..])|;
      assert |LeadingItems(ks)| == n + 1;
      TailSlice(ks, n);
    } else {
      assert ks[0..] == ks;
    }
  }

  /** Every bullet line's item lands in exactly one list block, in input
      order, and no list holds anything else. */
  lemma {:induction false} RenderListsBullets(ks: seq<LineKind>)
    ensures ListedItems(Render(ks)) == BulletItems(ks)
    decreases |ks|
  {
    if ks != [] {
      var blocks := Render(ks);
      if ks[0].BulletItem? {
        var items := LeadingItems(ks);
        RenderListsBullets(ks[|items|..]);
        LeadingRun(ks);
        assert blocks[1..] == Render(ks[|items|..]);
      } else {
        RenderListsBullets(ks[1..]);
        if !ks[0].BlankLine? {
          assert blocks[1..] == Render(ks[1..]);
        }
      }
    }
  }

  /** Headings and paragraphs come out in input order, one per line. */
  lemma {:induction false} RenderKeepsOthers(ks: seq<LineKind>)
    ensures NonListBlocks(Render(ks)) == OtherBlocks(ks)
    decreases |ks|
  {
    if ks != [] {
      var blocks := Render(ks);
      if ks[0].BulletItem? {
        var items := LeadingItems(ks);
        RenderKeepsOthers(ks[|items|..]);
        LeadingRun(ks);
        assert blocks[1..] == Render(ks[|items|..]);
      } else {
        RenderKeepsOthers(ks[1..]);
        if !ks[0].BlankLine? {
          assert blocks[1..] == Render(ks[1..]);
        }
      }
    }
  }

  /** Bullet lines holding the given items, one per item. */
  function Bullets(items: seq<string>): (ks: seq<LineKind>)
    ensures |ks| == |items|
  {
    if items == [] then [] else [BulletItem(items[0])] + Bullets(items[1..])
  }

  lemma {:induction false} LeadingBullets(items: seq<string>, rest: seq<LineKind>)
    requires rest == [] || !rest[0].BulletItem?
    ensures LeadingItems(Bullets(items) + rest) == items
  {
    if items != [] {
      assert (Bullets(items) + rest)[1..] == Bullets(items[1..]) + rest;
      LeadingBullets(items[1..], rest);
    }
  }

  /** A run of consecutive bullet lines, however long, becomes one list
      block holding all of their items. */
  lemma BulletRun(items: seq<string>, rest: seq<LineKind>)
    requires items != []
    requires rest == [] || !rest[0].BulletItem?
    ensures Render(Bullets(items) + rest) == [List(items)] + Render(rest)
  {
    LeadingBullets(items, rest);
    var ks := Bullets(items) + rest;
    assert ks[0] == BulletItem(items[0]);
    assert ks[|items|..] == rest;
  }

  /** Nothing is rendered exactly when every line is blank. */
  lemma {:induction false} RenderEmpty(ks: seq<LineKind>)
    ensures Render(ks) == [] <==> forall i :: 0 <= i < |ks| ==> ks[i] == BlankLine
    decreases |ks|
  {
    if ks != [] {
      if ks[0] == BlankLine {
        RenderEmpty(ks[1..]);
        assert forall i :: 1 <= i < |ks| ==> ks[i] == ks[1..][i - 1];
      }
    }
  }

  /** Every line is all whitespace. */
  predicate BlankLines(lines: seq<string>) {
    forall i :: 0 <= i < |lines| ==> AllWhitespace(lines[i])
  }

  /** A report formats to nothing exactly when all of its lines are blank;
      it never has more blocks than lines. */
  lemma FormatEmpty(text: string)
    ensures Format(text) == [] <==> BlankLines(Split(text))
    ensures |Format(text)| <= |Split(text)|
  {
    var lines := Split(text);
    var kinds := Classified(lines);
    RenderEmpty(kinds);
    if BlankLines(lines) {
      forall i | 0 <= i < |kinds| ensures kinds[i] == BlankLine {
        ClassifiedAt(lines, i);
        BlankIffWhitespace(lines[i]);
      }
    }
    if Render(kinds) == [] {
      forall i | 0 <= i < |lines| ensures AllWhitespace(lines[i]) {
        ClassifiedAt(lines, i);
        BlankIffWhitespace(lines[i]);
      }
    }
  }

  /** An empty report has no blocks. */
  lemma FormatNothing()
    ensures Format("") == []
  {
    assert Split("") == [""];
    assert Classify("") == BlankLine by { BlankIffWhitespace(""); }
    assert Classified([""]) == [BlankLine];
  }

  // Writing blocks back as text.

  /** Text a heading can hold and still be read back: non-empty, on one
      line, not ending in whitespace. */
  predicate HeadingText(t: string) {
    t != [] && !IsWhitespace(t[|t| - 1]) && '\n' !in t
  }

  /** Text a list item can hold: non-empty, on one line, trimmed. */
  predicate ItemText(t: string) {
    t != [] && IsTrimmed(t) && '\n' !in t
  }

  /** Text a paragraph can hold: an item text that does not itself start
      like a heading or a bullet. */
  predicate ParaText(t: string) {
    ItemText(t) && !StartsWith(t, "### ") && !StartsWith(t, "## ")
    && !StartsWith(t, "* ") && !StartsWith(t, "- ")
  }

  /** A block that survives being written out and read back. */
  predicate Writable(b: Block) {
    match b
    case H2(t) => HeadingText(t)
    case H3(t) => HeadingText(t)
    case List(items) => items != [] && forall i :: 0 <= i < |items| ==> ItemText(items[i])
    case Para(t) => ParaText(t)
  }

  predicate AllWritable(bs: seq<Block>) {
    forall i :: 0 <= i < |bs| ==> Writable(bs[i])
  }

  /** One `- ` line per item. */
  function BulletLines(items: seq<string>): (lines: seq<string>)
    ensures |lines| == |items|
  {
    if items == [] then [] else ["- " + items[0]] + BulletLines(items[1..])
  }

  /** The lines a block is written as; a list is closed by a blank line so
      that two lists in a row stay apart. */
  function BlockLines(b: Block): (lines: seq<string>)
    ensures lines != []
  {
    match b
    case H2(t) => ["## " + t]
    case H3(t) => ["### " + t]
    case List(items) => BulletLines(items) + [""]
    case Para(t) => [t]
  }

  function Lines(bs: seq<Block>): seq<string> {
    if bs == [] then [] else BlockLines(bs[0]) + Lines(bs[1..])
  }

  /** The report text that formats back to `bs`. */
  function ToMarkdown(bs: seq<Block>): string {
    Join(Lines(bs))
  }

  /** The kinds a written block's lines are read as. */
  function KindsOf(b: Block): seq<LineKind> {
    match b
    case H2(t) => [HeadingTwo(t)]
    case H3(t) => [HeadingThree(t)]
    case List(items) => Bullets(items) + [BlankLine]
    case Para(t) => [TextLine(t)]
  }

  /** A trimmed line starting with `"## "` but not `"### "` is an H2 of
      the text after three characters. */
  lemma HeadingTwoLine(line: string)
    requires IsTrimmed(line) && StartsWith(line, "## ") && !StartsWith(line, "### ")
    ensures ClassifyTrimmed(line) == HeadingTwo(line[3..])
  {
  }

  /** A trimmed line starting with `"### "` is an H3 of the text after four
      characters. */
  lemma HeadingThreeLine(line: string)
    requires IsTrimmed(line) && StartsWith(line, "### ")
    ensures ClassifyTrimmed(line) == HeadingThree(line[4..])
  {
  }

  /** The text after a written heading prefix. */
  lemma HeadingPrefix(prefix: string, t: string)
    requires prefix != [] && prefix[0] == '#' && HeadingText(t)
    ensures IsTrimmed(prefix + t) && StartsWith(prefix + t, prefix)
    ensures (prefix + t)[|prefix|..] == t
  {
    var line := prefix + t;
    assert line[0] == '#' && line[|line| - 1] == t[|t| - 1];
  }

  lemma HeadingTwoRoundTrip(t: string)
    requires HeadingText(t)
    ensures Classify("## " + t) == HeadingTwo(t)
  {
    var line := "## " + t;
    HeadingPrefix("## ", t);
    assert !StartsWith(line, "### ") by {
      assert line[2] == ' ';
    }
    HeadingTwoLine(line);
    ClassifyTrimmedLine(line);
  }

  lemma HeadingThreeRoundTrip(t: string)
    requires HeadingText(t)
    ensures Classify("### " + t) == HeadingThree(t)
  {
    var line := "### " + t;
    HeadingPrefix("### ", t);
    HeadingThreeLine(line);
    ClassifyTrimmedLine(line);
  }

  lemma ParaRoundTrip(t: string)
    requires ParaText(t)
    ensures Classify(t) == TextLine(t)
  {
    ClassifyTrimmedLine(t);
  }

  lemma BlankRoundTrip()
    ensures Classify("") == BlankLine
  {
    BlankIffWhitespace("");
  }

  lemma DashRoundTrip(item: string)
    requires ItemText(item)
    ensures Classify("- " + item) == BulletItem(item)
  {
    assert "- " + item == ['-'] + (" " + item);
    BulletRoundTrip('-', item);
  }

  lemma {:induction false} ClassifiedBulletLines(items: seq<string>)
    requires forall i :: 0 <= i < |items| ==> ItemText(items[i])
    ensures Classified(BulletLines(items)) == Bullets(items)
  {
    if items != [] {
      ClassifiedBulletLines(items[1..]);
      ClassifiedAppend(["- " + items[0]], BulletLines(items[1..]));
      DashRoundTrip(items[0]);
    }
  }

  lemma ClassifiedBlock(b: Block)
    requires Writable(b)
    ensures Classified(BlockLines(b)) == KindsOf(b)
  {
    match b
    case H2(t) => HeadingTwoRoundTrip(t);
    case H3(t) => HeadingThreeRoundTrip(t);
    case Para(t) => ParaRoundTrip(t);
    case List(items) =>
      ClassifiedBulletLines(items);
      ClassifiedAppend(BulletLines(items), [""]);
      BlankRoundTrip();
  }

  /** A line that is not a bullet contributes its own block and nothing
      more. */
  lemma RenderCons(k: LineKind, rest: seq<LineKind>)
    requires !k.BulletItem?
    ensures Render([k] + rest) == Emitted(k) + Render(rest)
  {
    assert ([k] + rest)[1..] == rest;
  }

  lemma RenderBlock(b: Block, rest: seq<LineKind>)
    requires Writable(b)
    ensures Render(KindsOf(b) + rest) == [b] + Render(rest)
  {
    match b
    case List(items) =>
      AppendAssoc(Bullets(items), [BlankLine], rest);
      BulletRun(items, [BlankLine] + rest);
      RenderCons(BlankLine, rest);
    case H2(t) => RenderCons(HeadingTwo(t), rest);
    case H3(t) => RenderCons(HeadingThree(t), rest);
    case Para(t) => RenderCons(TextLine(t), rest);
  }

  /** A non-empty sequence is its head followed by its tail; exists only to
      split a proof step. */
  lemma HeadTail(bs: seq<Block>)
    requires bs != []
    ensures [bs[0]] + bs[1..] == bs
  {
  }

  lemma {:induction false} RenderWritten(bs: seq<Block>)
    requires AllWritable(bs)
    ensures Render(Classified(Lines(bs))) == bs
  {
    if bs != [] {
      RenderWritten(bs[1..]);
      ClassifiedAppend(BlockLines(bs[0]), Lines(bs[1..]));
      ClassifiedBlock(bs[0]);
      RenderBlock(bs[0], Classified(Lines(bs[1..])));
      HeadTail(bs);
    }
  }

  lemma {:induction false} LinesNoLineFeed(bs: seq<Block>)
    requires AllWritable(bs)
    ensures forall i :: 0 <= i < |Lines(bs)| ==> '\n' !in Lines(bs)[i]
  {
    if bs != [] {
      LinesNoLineFeed(bs[1..]);
      BlockNoLineFeed(bs[0]);
    }
  }

  lemma BlockNoLineFeed(b: Block)
    requires Writable(b)
    ensures forall i :: 0 <= i < |BlockLines(b)| ==> '\n' !in BlockLines(b)[i]
  {
    if b.List? {
      BulletLinesNoLineFeed(b.items);
    }
  }

  lemma {:induction false} BulletLinesNoLineFeed(items: seq<string>)
    requires forall i :: 0 <= i < |items| ==> ItemText(items[i])
    ensures forall i :: 0 <= i < |BulletLines(items)| ==> '\n' !in BulletLines(items)[i]
  {
    if items != [] {
      BulletLinesNoLineFeed(items[1..]);
    }
  }

  /** Writing well-formed blocks out as text and formatting that text gives
      the same blocks back. */
  lemma FormatToMarkdown(bs: seq<Block>)
    requires AllWritable(bs)
    ensures Format(ToMarkdown(bs)) == bs
  {
    if bs == [] {
      FormatNothing();
    } else {
      LinesNoLineFeed(bs);
      SplitJoin(Lines(bs));
      RenderWritten(bs);
    }
  }

  /** A line kind whose block can be written back. */
  predicate KindWritable(k: LineKind) {
    match k
    case HeadingThree(t) => HeadingText(t)
    case HeadingTwo(t) => HeadingText(t)
    case BulletItem(item) => ItemText(item)
    case BlankLine => true
    case TextLine(t) => ParaText(t)
  }

  lemma ClassifyTrimmedWritable(t: string)
    requires IsTrimmed(t) && '\n' !in t
    ensures KindWritable(ClassifyTrimmed(t))
  {
    if StartsWith(t, "### ") {
      assert t[4..][|t| - 5] == t[|t| - 1];
    } else if StartsWith(t, "## ") {
      assert t[3..][|t| - 4] == t[|t| - 1];
    } else if StartsWith(t, "* ") || StartsWith(t, "- ") {
      TrimStartKeepsOut(t[1..], '\n');
    }
  }

  /** Every line of a report is read as something that can be written
      back. */
  lemma ClassifyWritable(line: string)
    requires '\n' !in line
    ensures KindWritable(Classify(line))
  {
    TrimKeepsOut(line, '\n');
    ClassifyTrimmedWritable(Trim(line));
  }

  lemma {:induction false} RenderWritable(ks: seq<LineKind>)
    requires forall i :: 0 <= i < |ks| ==> KindWritable(ks[i])
    ensures AllWritable(Render(ks))
    decreases |ks|
  {
    if ks != [] {
      if ks[0].BulletItem? {
        var items := LeadingItems(ks);
        RenderWritable(ks[|items|..]);
        assert forall i :: 0 <= i < |items| ==> KindWritable(ks[i]);
        assert Render(ks) == [List(items)] + Render(ks[|items|..]);
      } else {
        RenderWritable(ks[1..]);
        assert KindWritable(ks[0]);
      }
    }
  }

  /** Every block the formatter produces can be written back. */
  lemma FormatWritable(text: string)
    ensures AllWritable(Format(text))
  {
    var lines := Split(text);
    forall i | 0 <= i < |lines| ensures KindWritable(Classified(lines)[i]) {
      ClassifiedAt(lines, i);
      ClassifyWritable(lines[i]);
    }
    RenderWritable(Classified(lines));
  }

  /** Formatting is a normal form: writing the formatted blocks back out
      and formatting again changes nothing. */
  lemma FormatIdempotent(text: string)
    ensures Format(ToMarkdown(Format(text))) == Format(text)
  {
    FormatWritable(text);
    FormatToMarkdown(Format(text));
  }

  /** A blank line between blocks changes nothing. */
  lemma RenderBlankFirst(ks: seq<LineKind>)
    ensures Render([BlankLine] + ks) == Render(ks)
  {
    RenderCons(BlankLine, ks);
  }

  /** Formatting lines joined by line feeds reads each of them. */
  lemma FormatLines(lines: seq<string>)
    requires |lines| >= 1
    requires forall i :: 0 <= i < |lines| ==> '\n' !in lines[i]
    ensures Format(Join(lines)) == Render(Classified(lines))
  {
    SplitJoin(lines);
  }

  /** A block in front of three known blocks; exists only to split a proof
      step. */
  lemma PrependBlock(b: Block, bs: seq<Block>, b1: Block, b2: Block, b3: Block)
    requires bs == [b1, b2, b3]
    ensures [b] + bs == [b, b1, b2, b3]
  {
  }

  lemma ClassifiedFront(line: string, k: LineKind, rest: seq<string>)
    requires Classify(line) == k
    ensures Classified([line] + rest) == [k] + Classified(rest)
  {
    ClassifiedAppend([line], rest);
  }

  /** A report with both heading levels, a two-item list and a paragraph,
      separated by blank lines, reads as those four blocks in order. */
  lemma ExampleReport(a: string, x: string, y: string, b: string, p: string)
    requires HeadingText(a) && HeadingText(b) && ItemText(x) && ItemText(y) && ParaText(p)
    ensures Format(Join(["## " + a, "", "- " + x, "- " + y, "", "### " + b, p]))
            == [H2(a), List([x, y]), H3(b), Para(p)]
  {
    var bs := [List([x, y]), H3(b), Para(p)];
    assert AllWritable(bs);
    var body := Lines(bs);
    assert body == ["- " + x, "- " + y, "", "### " + b, p] by {
      assert Lines(bs[2..]) == [p];
      assert Lines(bs[1..]) == ["### " + b, p];
      assert BulletLines([x, y][1..]) == ["- " + y];
      assert BlockLines(bs[0]) == ["- " + x, "- " + y, ""];
    }
    var lines := ["## " + a] + ([""] + body);
    assert lines == ["## " + a, "", "- " + x, "- " + y, "", "### " + b, p];
    LinesNoLineFeed(bs);
    FormatLines(lines);
    HeadingTwoRoundTrip(a);
    BlankRoundTrip();
    ClassifiedFront("", BlankLine, body);
    ClassifiedFront("## " + a, HeadingTwo(a), [""] + body);
    var rest := Classified(body);
    RenderWritten(bs);
    RenderBlankFirst(rest);
    RenderCons(HeadingTwo(a), [BlankLine] + rest);
    PrependBlock(H2(a), bs, List([x, y]), H3(b), Para(p));
  }

  /** A list directly followed by a heading, with no blank line between
      them, is closed before the heading. */
  lemma ListThenHeading(items: seq<string>, k: LineKind, rest: seq<LineKind>)
    requires items != []
    requires k.HeadingTwo? || k.HeadingThree?
    ensures k.HeadingTwo? ==> Render(Bullets(items) + ([k] + rest)) == [List(items), H2(k.text)] + Render(rest)
    ensures k.HeadingThree? ==> Render(Bullets(items) + ([k] + rest)) == [List(items), H3(k.text)] + Render(rest)
  {
    var h := if k.HeadingTwo? then H2(k.text) else H3(k.text);
    assert Render(Bullets(items) + ([k] + rest)) == [List(items), h] + Render(rest) by {
      BulletRun(items, [k] + rest);
      RenderCons(k, rest);
      assert Emitted(k) == [h];
      assert [List(items)] + ([h] + Render(rest)) == [List(items), h] + Render(rest);
    }
  }

  // The view shown, the language toggle and the list of cited sources.

  /** JavaScript truthiness of an optional string: present and non-empty. */
  predicate Truthy(s: Option<string>) {
    s.Some? && s.value != ""
  }

  /** What the main panel shows. The loading view names the selected
      vertical, which the component reads with a non-null assertion the
      language does not check, so it may be absent. */
  datatype View =
    | LoadingView(selected: Option<string>)
    | ErrorView(message: string)
    | ReportView(result: ApiResult, vertical: string)
    | InitialView

  /** The choice of the view: loading while a fetch runs and no result is at
      hand, then an error, then the report, which needs both a result and a
      selected vertical, and the initial view otherwise. */
  function SelectView(isLoading: bool, result: Option<ApiResult>, error: Option<string>,
                      vertical: Option<string>): (v: View)
    ensures v.LoadingView? <==> isLoading && result.None?
    ensures v.LoadingView? ==> v.selected == vertical
    ensures v.ErrorView? <==> !(isLoading && result.None?) && Truthy(error)
    ensures v.ErrorView? ==> v.message == error.value && v.message != ""
    ensures v.ReportView? <==> !Truthy(error) && result.Some? && Truthy(vertical)
    ensures v.ReportView? ==> v.result == result.value && v.vertical == vertical.value
  {
    if isLoading && result.None? then LoadingView(vertical)
    else if Truthy(error) then ErrorView(error.value)
    else if result.Some? && Truthy(vertical) then ReportView(result.value, vertical.value)
    else InitialView
  }

  /** Refreshing a report on screen keeps it on screen: while the new fetch
      runs, the old report stays visible rather than the loading view. */
  lemma RefreshKeepsReport(result: ApiResult, vertical: string)
    requires vertical != ""
    ensures SelectView(true, Some(result), None, Some(vertical))
            == SelectView(false, Some(result), None, Some(vertical))
            == ReportView(result, vertical)
  {
  }

  /** An error hides a report that is at hand; the loading view does not
      hide anything that is at hand. */
  lemma ErrorOverReport(isLoading: bool, result: ApiResult, message: string, vertical: Option<string>)
    requires message != ""
    ensures SelectView(isLoading, Some(result), Some(message), vertical) == ErrorView(message)
  {
  }

  /** With nothing selected and nothing loading or failed, the welcome view
      is shown, whatever result is at hand. */
  lemma NothingSelected(result: Option<ApiResult>, error: Option<string>)
    requires !Truthy(error)
    ensures SelectView(false, result, error, None) == InitialView
  {
  }

  /** The markets whose native language is English and which get no
      language toggle. */
  const ToggleHiddenCodes: seq<string> := ["UK", "US", "AU"]

  /** Whether the language toggle is offered for a market code. */
  function ShowLanguageToggle(marketCode: string): (shown: bool)
    ensures !shown <==> marketCode == "UK" || marketCode == "US" || marketCode == "AU"
  {
    marketCode !in ToggleHiddenCodes
  }

  /** One entry of the sources list: the link target and its text. */
  datatype SourceLink = SourceLink(href: string, text: string)

  /** The link text of a cited page: its title, or its URI when the title
      is empty. */
  function LinkText(web: WebSource): (text: string)
    ensures web.title != "" ==> text == web.title
    ensures web.title == "" ==> text == web.uri
    ensures text == "" <==> web.title == "" && web.uri == ""
  {
    if web.title != "" then web.title else web.uri
  }

  /** The list entries: one per source that carries a web page, in order;
      a source without one is skipped. */
  function SourceLinks(sources: seq<GroundingChunk>): (links: seq<SourceLink>)
    ensures |links| <= |sources|
    ensures links == [] <==> forall i :: 0 <= i < |sources| ==> sources[i].web.None?
  {
    if sources == [] then []
    else
      (match sources[0].web
       case Some(web) => [SourceLink(web.uri, LinkText(web))]
       case None => [])
      + SourceLinks(sources[1..])
  }

  /** The sources section: absent when the result has no sources, and
      otherwise its list of links (which may be empty when no source
      carries a web page). */
  function SourcesSection(sources: seq<GroundingChunk>): (section: Option<seq<SourceLink>>)
    ensures section.None? <==> sources == []
    ensures section.Some? ==> section.value == SourceLinks(sources)
  {
    if |sources| > 0 then Some(SourceLinks(sources)) else None
  }

  /** When every source carries a web page, there is one link per source,
      pointing at its URI, with its title as text when it has one. */
  lemma {:induction false} SourceLinksComplete(sources: seq<GroundingChunk>)
    requires forall i :: 0 <= i < |sources| ==> sources[i].web.Some?
    ensures |SourceLinks(sources)| == |sources|
    ensures forall i :: 0 <= i < |sources| ==>
              SourceLinks(sources)[i] == SourceLink(sources[i].web.value.uri, LinkText(sources[i].web.value))
  {
    if sources != [] {
      SourceLinksComplete(sources[1..]);
      var links := SourceLinks(sources);
      var web := sources[0].web.value;
      assert links == [SourceLink(web.uri, LinkText(web))] + SourceLinks(sources[1..]);
      forall i | 1 <= i < |sources|
        ensures links[i] == SourceLink(sources[i].web.value.uri, LinkText(sources[i].web.value))
      {
        assert sources[i] == sources[1..][i - 1];
      }
    }
  }

  /** Sources without a web page contribute nothing; the section heading
      still appears when there are sources but none of them has a page. */
  lemma {:induction false} SourceLinksSkipBare(sources: seq<GroundingChunk>)
    requires forall i :: 0 <= i < |sources| ==> sources[i].web.None?
    ensures SourceLinks(sources) == []
    ensures sources != [] ==> SourcesSection(sources) == Some([])
  {
    if sources != [] {
      SourceLinksSkipBare(sources[1..]);
    }
  }
}
