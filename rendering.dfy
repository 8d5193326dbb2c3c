/**
 * Message rendering in the browser client (src/frontend/script.js):
 * the typewriter reveal of bot text, the structured formatting of an
 * image-analysis reply, and the description of the block that
 * `addMessage` builds for a user or bot message.
 */
module Rendering {
  import opened Wrappers
  import opened Text

  datatype Role = User | Bot

  /** The `options` object passed to `addMessage`. */
  datatype Options = Options(isFile: bool, isSearch: bool, isImageAnalysis: bool, image: Option<string>)

  const NoOptions := Options(false, false, false, None)

  /** One call `addMessage(content, type, options)`. */
  datatype MessageCall = MessageCall(content: string, role: Role, options: Options)

  // ---------------------------------------------------------------- typewriter

  /** Width of the random jitter added to the base delay (`Math.random() * 20`). */
  const JitterWidth: real := 20.0

  /** Characters before which the typewriter pauses three times as long. */
  predicate IsPause(c: char) {
    c == '.' || c == '!' || c == '?' || c == ','
  }

  /** True when the character at position `i` exists and is a pause character (`charAt` past the end is empty). */
  predicate PauseAt(text: string, i: nat) {
    i < |text| && IsPause(text[i])
  }

  /** The text span that the typewriter writes into, with its `typing` CSS class. */
  class TextElement {
    var textContent: string
    var typing: bool

    constructor ()
      ensures textContent == "" && !typing
    {
      textContent := "";
      typing := false;
    }
  }

  /**
   * `typeWriter(element, text, speed)`: one timer step per character. Step `k`
   * appends `text[k]`, then schedules the next step after a delay that is
   * `speed * 3` when the next character to show is punctuation and
   * otherwise `speed` plus a jitter drawn from `random[k]` (a value of
   * `Math.random()`, in [0, 1)). Returns the text content after each step
   * and the delays scheduled after each step. `addMessage` calls it with
   * the default speed of 30 milliseconds.
   */
  method TypeWriter(element: TextElement, text: string, speed: real, random: seq<real>)
      returns (shown: seq<string>, delays: seq<real>)
    requires |random| == |text|
    requires forall k :: 0 <= k < |random| ==> 0.0 <= random[k] < 1.0
    modifies element
    ensures element.textContent == text && !element.typing
    ensures |shown| == |text| && forall k :: 0 <= k < |text| ==> shown[k] == text[..k + 1]
    ensures |delays| == |text|
    ensures forall k :: 0 <= k < |text| && PauseAt(text, k + 1) ==> delays[k] == speed * 3.0
    ensures forall k :: 0 <= k < |text| && !PauseAt(text, k + 1) ==> speed <= delays[k] < speed + JitterWidth
  {
    var i := 0;
    element.textContent := "";
    element.typing := true;
    shown, delays := [], [];
    while i < |text|
      invariant 0 <= i <= |text|
      invariant element.textContent == text[..i] && element.typing
      invariant |shown| == i && forall k :: 0 <= k < i ==> shown[k] == text[..k + 1]
      invariant |delays| == i
      invariant forall k :: 0 <= k < i && PauseAt(text, k + 1) ==> delays[k] == speed * 3.0
      invariant forall k :: 0 <= k < i && !PauseAt(text, k + 1) ==> speed <= delays[k] < speed + JitterWidth
    {
      element.textContent := element.textContent + [text[i]];
      i := i + 1;
      var delay := if PauseAt(text, i) then speed * 3.0 else speed + random[i - 1] * JitterWidth;
      shown := shown + [element.textContent];
      delays := delays + [delay];
    }
    element.typing := false;
  }

  // ---------------------------------------------------- image-analysis format

  /**
   * One line of an image-analysis reply. A line with a colon becomes a bold
   * label and a description: `const [title, desc] = section.split(':')`
   * keeps the text before the first colon and the text between the first
   * and the second colon, and drops anything after a second colon.
   */
  function FormatSection(section: string): (r: string)
    ensures ':' !in section ==> r == section
    ensures ':' in section ==>
      r == "<strong>" + Before(section, ':') + ":</strong> " + Before(After(section, ':'), ':')
  {
    if ':' in section then
      var parts := Split(section, ':');
      SplitAtFirst(section, ':');
      var title, desc := parts[0], parts[1];
      assert desc == Split(After(section, ':'), ':')[0];
      BeforeIsFirstPiece(After(section, ':'), ':');
      "<strong>" + title + ":</strong> " + desc
    else
      section
  }

  /** The first piece of a split is the text before the first separator. */
  lemma BeforeIsFirstPiece(s: string, c: char)
    ensures Split(s, c)[0] == Before(s, c)
  {
    if c in s {
      SplitAtFirst(s, c);
    } else {
      SplitNoSep(s, c);
    }
  }

  /** A line that `line.trim()` turns into the empty (falsy) string. */
  predicate IsBlank(line: string) {
    Trim(line) == ""
  }

  /** `lines.filter(line => line.trim())`: the lines whose trim is non-empty, in order. */
  function NonBlank(lines: seq<string>): (r: seq<string>)
    ensures |r| <= |lines|
    ensures forall k :: 0 <= k < |r| ==> !IsBlank(r[k])
    decreases |lines|
  {
    if |lines| == 0 then []
    else if !IsBlank(lines[0]) then [lines[0]] + NonBlank(lines[1..])
    else NonBlank(lines[1..])
  }

  /** Filtering a concatenation is concatenating the filtered parts: order is kept. */
  lemma {:induction false} NonBlankAppend(a: seq<string>, b: seq<string>)
    ensures NonBlank(a + b) == NonBlank(a) + NonBlank(b)
    decreases |a|
  {
    if |a| > 0 {
      assert (a + b)[0] == a[0];
      assert (a + b)[1..] == a[1..] + b;
      NonBlankAppend(a[1..], b);
      if !IsBlank(a[0]) {
        assert NonBlank(a + b) == [a[0]] + NonBlank(a[1..] + b);
        assert NonBlank(a) == [a[0]] + NonBlank(a[1..]);
      }
    } else {
      assert a + b == b;
    }
  }

  /** A single line is kept exactly when its trim is non-empty. */
  lemma NonBlankSingle(line: string)
    ensures NonBlank([line]) == if IsBlank(line) then [] else [line]
  {
  }

  /** The formatted segments of an image-analysis reply, one per non-blank line. */
  function Segments(content: string): (r: seq<string>)
    ensures |r| == |NonBlank(Split(content, '\n'))|
    ensures forall k :: 0 <= k < |r| ==> r[k] == FormatSection(NonBlank(Split(content, '\n'))[k])
  {
    var sections := NonBlank(Split(content, '\n'));
    seq(|sections|, k requires 0 <= k < |sections| => FormatSection(sections[k]))
  }

  /** The HTML that `addMessage` puts in the bot message when `isImageAnalysis` is set. */
  function FormatImageAnalysis(content: string): (r: string)
    ensures r == "" <==> NonBlank(Split(content, '\n')) == []
  {
    var segs := Segments(content);
    if segs == [] then Join(segs, "<br>")
    else
      SectionNotEmpty(NonBlank(Split(content, '\n'))[0]);
      JoinStartsWithFirst(segs, "<br>");
      Join(segs, "<br>")
  }

  /** A non-blank line formats to a non-empty string. */
  lemma SectionNotEmpty(section: string)
    requires !IsBlank(section)
    ensures FormatSection(section) != ""
  {
    assert Trim("") == "";
  }

  /** A join begins with its first piece. */
  lemma JoinStartsWithFirst(parts: seq<string>, sep: string)
    requires |parts| >= 1
    ensures parts[0] <= Join(parts, sep)
  {
  }

  /** When every line is non-blank and has no colon, the reply is shown line for line with `<br>` for each newline. */
  lemma PlainLinesPassThrough(lines: seq<string>)
    requires |lines| >= 1
    requires forall k :: 0 <= k < |lines| ==> '\n' !in lines[k] && ':' !in lines[k] && !IsBlank(lines[k])
    ensures FormatImageAnalysis(Join(lines, "\n")) == Join(lines, "<br>")
  {
    SplitJoin(lines, '\n');
    NonBlankAll(lines);
    var segs := Segments(Join(lines, "\n"));
    assert segs == lines;
  }

  lemma {:induction false} NonBlankAll(lines: seq<string>)
    requires forall k :: 0 <= k < |lines| ==> !IsBlank(lines[k])
    ensures NonBlank(lines) == lines
    decreases |lines|
  {
    if |lines| > 0 {
      NonBlankAll(lines[1..]);
    }
  }

  /** A blank line between two others leaves the result unchanged. */
  lemma BlankLineDropped(a: string, blank: string, b: string)
    requires '\n' !in blank && AllSpace(blank)
    ensures FormatImageAnalysis(a + "\n" + blank + "\n" + b) == FormatImageAnalysis(a + "\n" + b)
  {
    TrimEmptyIff(blank);
    var pa, pb := Split(a, '\n'), Split(b, '\n');
    assert a + "\n" + blank + "\n" + b == a + ['\n'] + (blank + ['\n'] + b);
    SplitConcat(a, '\n', blank + ['\n'] + b);
    SplitConcat(blank, '\n', b);
    SplitNoSep(blank, '\n');
    assert Split(a + "\n" + blank + "\n" + b, '\n') == pa + ([blank] + pb);
    SplitConcat(a, '\n', b);
    NonBlankAppend(pa, [blank] + pb);
    NonBlankAppend([blank], pb);
    NonBlankAppend(pa, pb);
  }

  /** A blank first line leaves the result unchanged. */
  lemma BlankFirstLineDropped(blank: string, b: string)
    requires '\n' !in blank && AllSpace(blank)
    ensures FormatImageAnalysis(blank + "\n" + b) == FormatImageAnalysis(b)
  {
    TrimEmptyIff(blank);
    SplitConcat(blank, '\n', b);
    SplitNoSep(blank, '\n');
    NonBlankAppend([blank], Split(b, '\n'));
    assert NonBlank(Split(blank + "\n" + b, '\n')) == NonBlank(Split(b, '\n'));
  }

  /** A blank last line leaves the result unchanged. */
  lemma BlankLastLineDropped(a: string, blank: string)
    requires '\n' !in blank && AllSpace(blank)
    ensures FormatImageAnalysis(a + "\n" + blank) == FormatImageAnalysis(a)
  {
    TrimEmptyIff(blank);
    SplitConcat(a, '\n', blank);
    SplitNoSep(blank, '\n');
    NonBlankAppend(Split(a, '\n'), [blank]);
    assert NonBlank(Split(a, '\n')) + [] == NonBlank(Split(a, '\n'));
    assert NonBlank(Split(a + "\n" + blank, '\n')) == NonBlank(Split(a, '\n'));
  }

  /** Joining two non-empty lists of pieces puts one separator between their joins. */
  lemma {:induction false} JoinConcat(a: seq<string>, b: seq<string>, sep: string)
    requires |a| >= 1 && |b| >= 1
    ensures Join(a + b, sep) == Join(a, sep) + sep + Join(b, sep)
    decreases |a|
  {
    if |a| == 1 {
      assert (a + b)[1..] == b;
    } else {
      assert (a + b)[1..] == a[1..] + b;
      JoinConcat(a[1..], b, sep);
    }
  }

  /** A line `label:desc` with no further colon becomes the bold label, its colon and a space, then the description. */
  lemma LabelledSection(title: string, desc: string)
    requires ':' !in title && ':' !in desc
    ensures FormatSection(title + [':'] + desc) == "<strong>" + title + ":</strong> " + desc
  {
    var s := title + [':'] + desc;
    assert s[|title|] == ':';
    assert Before(s, ':') == title by {
      var b := Before(s, ':');
      assert |b| < |s| && s[|b|] == ':';
      assert b == s[..|b|];
    }
    assert After(s, ':') == desc;
  }

  /** Two non-blank lines give two sections joined by one `<br>`. */
  lemma TwoSections(first: string, second: string)
    requires '\n' !in first && '\n' !in second
    requires !AllSpace(first) && !AllSpace(second)
    ensures FormatImageAnalysis(first + ['\n'] + second)
            == FormatSection(first) + "<br>" + FormatSection(second)
  {
    SplitConcat(first, '\n', second);
    SplitNoSep(first, '\n');
    SplitNoSep(second, '\n');
    TrimEmptyIff(first);
    TrimEmptyIff(second);
    assert NonBlank([first, second]) == [first, second] by {
      NonBlankAppend([first], [second]);
      NonBlankSingle(first);
      NonBlankSingle(second);
    }
    assert Split(first + ['\n'] + second, '\n') == [first, second];
    var x, y := FormatSection(first), FormatSection(second);
    assert Segments(first + ['\n'] + second) == [x, y];
    assert [x, y][1..] == [y];
    assert Join([x, y], "<br>") == x + "<br>" + Join([y], "<br>");
  }

  /** A two-line analysis: each label is bolded with its colon, and the description keeps its leading space. */
  lemma TwoLineExample()
    ensures FormatImageAnalysis("Color: Blue\nShape: Circle")
            == ("<strong>" + "Color" + ":</strong> " + " Blue") + "<br>" + ("<strong>" + "Shape" + ":</strong> " + " Circle")
  {
    assert ':' !in "Shape" && ':' !in " Circle";
    assert ':' !in "Color" && ':' !in " Blue";
    var first, second := "Color: Blue", "Shape: Circle";
    assert first == "Color" + [':'] + " Blue";
    assert second == "Shape" + [':'] + " Circle";
    assert "Color: Blue\nShape: Circle" == first + ['\n'] + second;
    assert !AllSpace(first) by { assert !IsSpace(first[0]); }
    assert !AllSpace(second) by { assert !IsSpace(second[0]); }
    TwoSections(first, second);
    LabelledSection("Color", " Blue");
    LabelledSection("Shape", " Circle");
  }

  // ---------------------------------------------------------- message blocks

  /** How the text of a message is shown. */
  datatype Body =
    | Typed(text: string)    // bot text revealed by the typewriter
    | Markup(html: string)   // image-analysis HTML set as innerHTML
    | Plain(text: string)    // user text set as textContent

  /** The CSS classes `addMessage` adds beyond `message` and `<type>-message`. */
  datatype Tag = ImageAnalysisTag | FileMessageTag | SearchResultTag

  /** The block appended to the transcript once `addMessage` finishes. */
  datatype Block = Block(role: Role, body: Body, fileIcon: bool, image: Option<string>, tags: set<Tag>)

  /** The final text shown by a block (the typewriter ends with the whole text). */
  function Shown(b: Block): string {
    match b.body
    case Typed(t) => t
    case Markup(h) => h
    case Plain(t) => t
  }

  /** What `addMessage(content, type, options)` builds; an empty `image` string is falsy and shows no image. */
  function Render(call: MessageCall): (b: Block)
    ensures b.role == call.role
    ensures b.image.Some? ==> call.role == Bot && b.image == call.options.image && b.image.value != ""
    ensures call.role == Bot ==>
      && (b.body.Typed? <==> !call.options.isImageAnalysis)
      && (b.body.Markup? <==> call.options.isImageAnalysis)
      && b.image == (if call.options.image == Some("") then None else call.options.image)
    ensures call.role == User ==> b.body.Plain? && b.image == None
    ensures b.fileIcon <==> call.role == User && call.options.isFile
    ensures FileMessageTag in b.tags <==> call.role == User && call.options.isFile
    ensures SearchResultTag in b.tags <==> call.role == User && call.options.isSearch
    ensures ImageAnalysisTag in b.tags <==> call.role == Bot && call.options.isImageAnalysis
    ensures Shown(b) == if call.role == Bot && call.options.isImageAnalysis
                        then FormatImageAnalysis(call.content) else call.content
  {
    var o := call.options;
    match call.role
    case Bot =>
      Block(Bot,
            if o.isImageAnalysis then Markup(FormatImageAnalysis(call.content)) else Typed(call.content),
            false, if o.image.Some? && o.image.value != "" then o.image else None,
            if o.isImageAnalysis then {ImageAnalysisTag} else {})
    case User =>
      Block(User, Plain(call.content), o.isFile, None,
            (if o.isFile then {FileMessageTag} else {}) + (if o.isSearch then {SearchResultTag} else {}))
  }

  /** The user branch of `addMessage` has no image block: an `image` option on a user message is never shown. */
  lemma UserImageNeverShown(content: string, o: Options)
    ensures Render(MessageCall(content, User, o)).image == None
  {
  }
}
