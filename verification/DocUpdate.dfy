/** The `doc_update` tool: rewriting one section of a Markdown document in place. */
module DocUpdate {

  /** What ends a section body: the line break before the next second-level heading. */
  const SEPARATOR: string := "\n## "

  /** Whether `part` occurs anywhere in `text`. */
  predicate Contains(text: string, part: string) {
    part <= text || (text != "" && Contains(text[1..], part))
  }

  function Heading(section: string): string {
    "## " + section
  }

  /** The text a literal replacement writes for a section: heading line, content, line break. */
  function SectionText(section: string, content: string): string {
    Heading(section) + "\n" + content + "\n"
  }

  /** Length of the shortest body that is followed by a separator or by the end of the text. */
  function BodyLength(text: string): (n: nat)
    ensures n <= |text|
  {
    if text == "" || SEPARATOR <= text then 0 else 1 + BodyLength(text[1..])
  }

  /** Leftmost non-overlapping replacement of `head` followed by its shortest body. */
  function Rewrite(text: string, head: string, expand: string -> string): string
    requires head != ""
    decreases |text|
  {
    if text == "" then ""
    else if head <= text then
      var rest := text[|head|..];
      var n := BodyLength(rest);
      expand(rest[..n]) + Rewrite(rest[n..], head, expand)
    else [text[0]] + Rewrite(text[1..], head, expand)
  }

  /** How the regular-expression engine treats the replacement: it may reject it, and what it
      writes may depend on the body it replaces. Without a backslash the replacement is literal. */
  datatype Template = Template(rejected: bool, expand: string -> string)

  ghost predicate LiteralWithoutBackslash(t: Template, section: string, content: string) {
    '\\' !in section + content ==>
      !t.rejected && forall body :: t.expand(body) == SectionText(section, content)
  }

  function Updated(existing: string, section: string, content: string, expand: string -> string): string {
    if Contains(existing, Heading(section)) then Rewrite(existing, Heading(section) + "\n", expand)
    else existing + "\n" + SectionText(section, content)
  }

  /** The update for text without a backslash. */
  function LiteralUpdate(existing: string, section: string, content: string): string {
    Updated(existing, section, content, body => SectionText(section, content))
  }

  /** How the file system answers. Opening a file for writing empties it, so a write that fails
      leaves only what was written of the new text. */
  datatype FileReply = Answers | CannotRead | CannotOpen | WriteStops(written: nat)

  function Beginning(text: string, n: nat): string {
    if n < |text| then text[..n] else text
  }

  /** The worker's checkout, as far as this tool sees it. */
  class Workspace {
    var files: map<string, string>

    method DocUpdate(path: string, section: string, content: string, template: Template, io: FileReply)
      returns (ok: bool)
      requires LiteralWithoutBackslash(template, section, content)
      modifies this
      ensures var existing := if path in old(files) then old(files)[path] else "";
        var rejected := Contains(existing, Heading(section)) && template.rejected;
        && ok == (io == Answers && !rejected)
        && files == if rejected || io == CannotRead || io == CannotOpen then old(files)
                    else
                      var updated := Updated(existing, section, content, template.expand);
                      old(files)[path := if ok then updated else Beginning(updated, io.written)]
      ensures ok && '\\' !in section + content ==>
        files[path] == LiteralUpdate(if path in old(files) then old(files)[path] else "", section, content)
    {
      if io == CannotRead { return false; }
      var existing := "";
      if path in files {
        existing := files[path];
      }
      ghost var before := existing;
      if Contains(existing, Heading(section)) {
        if template.rejected { return false; }
        existing := Rewrite(existing, Heading(section) + "\n", template.expand);
      } else {
        existing := existing + "\n" + SectionText(section, content);
      }
      if io == CannotOpen { return false; }
      if io.WriteStops? {
        files := files[path := Beginning(existing, io.written)];
        return false;
      }
      files := files[path := existing];
      ok := true;
      if '\\' !in section + content {
        SameExpansion(before, Heading(section) + "\n", template.expand, body => SectionText(section, content));
      }
    }
  }

  lemma {:induction false} SameExpansion(text: string, head: string, e: string -> string, f: string -> string)
    requires head != "" && forall body :: e(body) == f(body)
    ensures Rewrite(text, head, e) == Rewrite(text, head, f)
    decreases |text|
  {
    if text == "" {
    } else if head <= text {
      var rest := text[|head|..];
      SameExpansion(rest[BodyLength(rest)..], head, e, f);
    } else {
      SameExpansion(text[1..], head, e, f);
    }
  }

  // ----- Text outside the rewritten spans

  datatype Piece = Kept(c: char) | Span(body: string)

  /** How the scan cuts a document, whatever is written into the spans. */
  function Pieces(text: string, head: string): seq<Piece>
    requires head != ""
    decreases |text|
  {
    if text == "" then []
    else if head <= text then
      var rest := text[|head|..];
      [Span(rest[..BodyLength(rest)])] + Pieces(rest[BodyLength(rest)..], head)
    else [Kept(text[0])] + Pieces(text[1..], head)
  }

  /** A document put together again, each span's body going through `write`. */
  function Assembled(pieces: seq<Piece>, write: string -> string): string {
    if pieces == [] then ""
    else (match pieces[0] case Kept(c) => [c] case Span(body) => write(body)) + Assembled(pieces[1..], write)
  }

  /** One cut explains both documents: only span bodies differ, and no body reaches past a heading. */
  lemma {:induction false} RewriteKeepsOutside(text: string, head: string, expand: string -> string)
    requires head != ""
    ensures var pieces := Pieces(text, head);
      && Assembled(pieces, body => head + body) == text
      && Assembled(pieces, expand) == Rewrite(text, head, expand)
      && forall i :: 0 <= i < |pieces| && pieces[i].Span? ==> !Contains(pieces[i].body, SEPARATOR)
    decreases |text|
  {
    if text == "" {
    } else if head <= text {
      var rest := text[|head|..];
      var n := BodyLength(rest);
      BodyHasNoSeparator(rest);
      RewriteKeepsOutside(rest[n..], head, expand);
      assert text == head + rest[..n] + rest[n..];
    } else {
      RewriteKeepsOutside(text[1..], head, expand);
    }
  }

  lemma {:induction false} BodyHasNoSeparator(text: string)
    ensures !Contains(text[..BodyLength(text)], SEPARATOR)
  {
    if text != "" && !(SEPARATOR <= text) {
      BodyHasNoSeparator(text[1..]);
      var body := text[..BodyLength(text)];
      assert body[1..] == text[1..][..BodyLength(text[1..])];
      assert SEPARATOR <= body ==> SEPARATOR <= text;
    }
  }

  // ----- Last writer wins

  function Constant(text: string): string -> string {
    body => text
  }

  /** Rewriting with text that starts with the head does not change which short prefixes match. */
  lemma {:induction false} ShortPrefixKept(q: string, text: string, head: string, tail: string)
    requires head != "" && |q| <= |head|
    ensures q <= Rewrite(text, head, Constant(head + tail)) <==> q <= text
    decreases |text|
  {
    if text == "" {
    } else if head <= text {
      var r := Rewrite(text, head, Constant(head + tail));
      assert head <= r;
      assert r[..|q|] == head[..|q|] == text[..|q|];
      assert q <= text <==> q == text[..|q|];
    } else if q != "" {
      var r := Rewrite(text, head, Constant(head + tail));
      ShortPrefixKept(q[1..], text[1..], head, tail);
      assert r[1..] == Rewrite(text[1..], head, Constant(head + tail));
      assert forall t: string :: t != "" ==> (q <= t <==> q[0] == t[0] && q[1..] <= t[1..]) by {
        forall t: string | t != "" ensures q <= t <==> q[0] == t[0] && q[1..] <= t[1..] {
          PrefixSteps(q, t);
        }
      }
    }
  }

  lemma PrefixSteps(q: string, t: string)
    requires q != "" && t != ""
    ensures q <= t <==> q[0] == t[0] && q[1..] <= t[1..]
  {
    if q[0] == t[0] && q[1..] <= t[1..] {
      assert q == [q[0]] + q[1..] && t == [t[0]] + t[1..];
    }
  }

  /** Without a separator of its own, written content extends exactly to what follows it. */
  lemma {:induction false} WrittenBody(content: string, rest: string)
    requires !Contains(content, SEPARATOR)
    requires rest == "" || SEPARATOR <= rest
    ensures BodyLength(content + "\n" + rest) == |content| + 1
  {
    var text := content + "\n" + rest;
    if content == "" {
      assert text[1..] == rest;
      if rest != "" {
        assert text[1] == rest[0] == SEPARATOR[0];
        DiffersAt(SEPARATOR, text, 1);
      }
    } else {
      assert text[1..] == content[1..] + "\n" + rest;
      WrittenBody(content[1..], rest);
      if |content| >= 4 {
        assert text == content + ("\n" + rest);
        PrefixWithin(SEPARATOR, content, "\n" + rest);
      } else {
        assert text[|content|] == '\n';
        DiffersAt(SEPARATOR, text, |content|);
      }
    }
  }

  lemma DiffersAt(q: string, t: string, i: nat)
    requires i < |q| && i < |t| && q[i] != t[i]
    ensures !(q <= t)
  {
  }

  lemma PrefixWithin(q: string, t: string, rest: string)
    requires |q| <= |t|
    ensures q <= t + rest <==> q <= t
  {
    assert (t + rest)[..|q|] == t[..|q|];
  }

  /** The end of a rewritten span is still an end after the rest has been rewritten. */
  lemma BoundaryKept(rest: string, section: string, tail: string)
    requires rest == "" || SEPARATOR <= rest
    ensures var head := Heading(section) + "\n";
      var r := Rewrite(rest, head, Constant(head + tail));
      if rest == "" then r == "" else SEPARATOR <= r
  {
    var head := Heading(section) + "\n";
    if rest != "" {
      assert rest[0] == SEPARATOR[0];
      assert head[0] == '#';
      assert !(head <= rest);
      assert SEPARATOR[1..] == "## ";
      PrefixSteps(SEPARATOR, rest);
      ShortPrefixKept("## ", rest[1..], head, tail);
      PrefixSteps(SEPARATOR, Rewrite(rest, head, Constant(head + tail)));
    }
  }

  lemma {:induction false} RewriteTwice(text: string, section: string, first: string, second: string)
    requires !Contains(first, SEPARATOR)
    ensures var head := Heading(section) + "\n";
      Rewrite(Rewrite(text, head, Constant(head + first + "\n")), head, Constant(head + second + "\n"))
      == Rewrite(text, head, Constant(head + second + "\n"))
    decreases |text|
  {
    var head := Heading(section) + "\n";
    var w1, w2 := head + first + "\n", head + second + "\n";
    var once := Rewrite(text, head, Constant(w1));
    assert w1 == head + (first + "\n");
    if text == "" {
    } else if head <= text {
      var rest := text[|head|..];
      var after := rest[BodyLength(rest)..];
      BodyEnds(rest);
      RewriteTwice(after, section, first, second);
      BoundaryKept(after, section, first + "\n");
      RewriteOverWritten(section, first, second, Rewrite(after, head, Constant(w1)));
    } else {
      RewriteTwice(text[1..], section, first, second);
      ShortPrefixKept(head, text, head, first + "\n");
      assert once[1..] == Rewrite(text[1..], head, Constant(w1));
    }
  }

  /** A written section before a boundary is replaced as a whole. */
  lemma RewriteOverWritten(section: string, first: string, second: string, rest: string)
    requires !Contains(first, SEPARATOR)
    requires rest == "" || SEPARATOR <= rest
    ensures var head := Heading(section) + "\n";
      var write := Constant(head + second + "\n");
      Rewrite(head + first + "\n" + rest, head, write) == head + second + "\n" + Rewrite(rest, head, write)
  {
    var head := Heading(section) + "\n";
    var body := first + "\n" + rest;
    var text := head + first + "\n" + rest;
    assert text == head + body;
    assert head <= text && text[|head|..] == body;
    WrittenBody(first, rest);
    assert body[|first| + 1..] == rest;
  }

  lemma {:induction false} BodyEnds(text: string)
    ensures var after := text[BodyLength(text)..]; after == "" || SEPARATOR <= after
  {
    if text != "" && !(SEPARATOR <= text) {
      BodyEnds(text[1..]);
      assert text[BodyLength(text)..] == text[1..][BodyLength(text[1..])..];
    }
  }

  lemma {:induction false} HeadingKept(text: string, section: string, tail: string)
    requires Contains(text, Heading(section))
    ensures var head := Heading(section) + "\n";
      Contains(Rewrite(text, head, Constant(head + tail)), Heading(section))
    decreases |text|
  {
    var head := Heading(section) + "\n";
    var r := Rewrite(text, head, Constant(head + tail));
    ShortPrefixKept(Heading(section), text, head, tail);
    if !(Heading(section) <= text) {
      assert head <= text ==> Heading(section) <= text by {
        assert Heading(section) == head[..|head| - 1];
      }
      HeadingKept(text[1..], section, tail);
      assert r[1..] == Rewrite(text[1..], head, Constant(head + tail));
    }
  }

  /** A heading line cannot start in text without that heading and run across a line break. */
  lemma NoHeadAcross(text: string, section: string, rest: string)
    requires !(Heading(section) <= text) && '\n' !in section
    ensures !(Heading(section) + "\n" <= text + ("\n" + rest))
  {
    var heading, whole := Heading(section), text + ("\n" + rest);
    var head := heading + "\n";
    if |text| < |heading| {
      assert whole[|text|] == '\n' && head[|text|] == heading[|text|];
      DiffersAt(head, whole, |text|);
    } else {
      PrefixWithin(heading, text, "\n" + rest);
      assert heading == head[..|heading|];
    }
  }

  /** Rewriting an appended section touches the appended text only. */
  lemma {:induction false} RewriteAppended(text: string, section: string, body: string, write: string -> string)
    requires !Contains(text, Heading(section)) && '\n' !in section
    ensures var head := Heading(section) + "\n";
      Rewrite(text + ("\n" + (head + body)), head, write) == text + ("\n" + Rewrite(head + body, head, write))
  {
    var head := Heading(section) + "\n";
    var added := "\n" + (head + body);
    var whole := text + added;
    NoHeadAcross(text, section, head + body);
    if text == "" {
      assert whole == added && whole[1..] == head + body;
    } else {
      assert whole[1..] == text[1..] + added;
      RewriteAppended(text[1..], section, body, write);
      assert text == [text[0]] + text[1..];
    }
  }

  lemma AppendedContains(text: string, section: string, tail: string)
    ensures Contains(text + ("\n" + (Heading(section) + "\n" + tail)), Heading(section))
  {
    var rest := "\n" + (Heading(section) + "\n" + tail);
    assert Heading(section) <= rest[1..];
    SuffixContains(text, rest, Heading(section));
  }

  lemma {:induction false} SuffixContains(text: string, rest: string, part: string)
    requires Contains(rest, part)
    ensures Contains(text + rest, part)
  {
    if text == "" {
      assert text + rest == rest;
    } else {
      assert (text + rest)[1..] == text[1..] + rest;
      SuffixContains(text[1..], rest, part);
    }
  }

  lemma UpdateUnfolds(text: string, section: string, content: string)
    ensures var head := Heading(section) + "\n";
      LiteralUpdate(text, section, content) ==
        if Contains(text, Heading(section)) then Rewrite(text, head, Constant(head + content + "\n"))
        else text + ("\n" + (head + (content + "\n")))
  {
    var head := Heading(section) + "\n";
    SameExpansion(text, head, body => SectionText(section, content), Constant(head + content + "\n"));
    assert SectionText(section, content) == head + (content + "\n");
    JoinsEqual(text, "\n", head + (content + "\n"));
  }

  lemma JoinsEqual(a: string, b: string, c: string)
    ensures a + b + c == a + (b + c)
  {
  }

  lemma {:induction false} AppendedThenRewritten(text: string, section: string, first: string, second: string)
    requires '\n' !in section && !Contains(first, SEPARATOR)
    requires !Contains(text, Heading(section))
    ensures var head := Heading(section) + "\n";
      Rewrite(text + ("\n" + (head + (first + "\n"))), head, Constant(head + second + "\n"))
      == text + ("\n" + (head + (second + "\n")))
  {
    var head := Heading(section) + "\n";
    RewriteAppended(text, section, first + "\n", Constant(head + second + "\n"));
    RewriteOverWritten(section, first, second, "");
    JoinsEqual(head, first, "\n");
    JoinsEqual(head, second, "\n");
    assert head + first + "\n" + "" == head + first + "\n";
    assert head + second + "\n" + "" == head + second + "\n";
  }

  /** Updating with `first` and then with `second` is updating with `second` alone. */
  lemma LastWriterWins(text: string, section: string, first: string, second: string)
    requires '\n' !in section && !Contains(first, SEPARATOR)
    ensures LiteralUpdate(LiteralUpdate(text, section, first), section, second)
         == LiteralUpdate(text, section, second)
  {
    var head := Heading(section) + "\n";
    var once := LiteralUpdate(text, section, first);
    UpdateUnfolds(text, section, first);
    UpdateUnfolds(text, section, second);
    UpdateUnfolds(once, section, second);
    if Contains(text, Heading(section)) {
      JoinsEqual(head, first, "\n");
      HeadingKept(text, section, first + "\n");
      RewriteTwice(text, section, first, second);
    } else {
      AppendedContains(text, section, first + "\n");
      AppendedThenRewritten(text, section, first, second);
    }
  }

  /** A written section with a separator in its content keeps what follows that separator. */
  lemma RewriteBreaksOff(section: string, first: string, second: string)
    requires Contains(first, SEPARATOR)
    ensures var head := Heading(section) + "\n";
      |Rewrite(head + (first + "\n"), head, Constant(head + second + "\n"))| > |head + second + "\n"|
  {
    var head := Heading(section) + "\n";
    var w := head + second + "\n";
    var written, body := head + (first + "\n"), first + "\n";
    var after := body[BodyLength(body)..];
    EarlySeparator(first, "\n");
    BodyEnds(body);
    BoundaryKept(after, section, second + "\n");
    JoinsEqual(head, second, "\n");
    assert written[|head|..] == body;
    assert Rewrite(written, head, Constant(w)) == w + Rewrite(after, head, Constant(w));
  }

  lemma {:induction false} EarlySeparator(text: string, rest: string)
    requires Contains(text, SEPARATOR)
    ensures BodyLength(text + rest) < |text|
  {
    if SEPARATOR <= text {
      assert SEPARATOR <= text + rest;
    } else {
      assert (text + rest)[1..] == text[1..] + rest;
      EarlySeparator(text[1..], rest);
    }
  }

  /** Exactly which first contents are always overwritten in full, whatever the document. */
  lemma LastWriterWinsExactly(section: string, first: string, second: string)
    requires '\n' !in section
    ensures (forall text :: LiteralUpdate(LiteralUpdate(text, section, first), section, second)
                         == LiteralUpdate(text, section, second))
            <==> !Contains(first, SEPARATOR)
  {
    if Contains(first, SEPARATOR) {
      var head := Heading(section) + "\n";
      var once := LiteralUpdate("", section, first);
      UpdateUnfolds("", section, first);
      UpdateUnfolds("", section, second);
      UpdateUnfolds(once, section, second);
      AppendedContains("", section, first + "\n");
      RewriteAppended("", section, first + "\n", Constant(head + second + "\n"));
      RewriteBreaksOff(section, first, second);
      assert |LiteralUpdate(once, section, second)| > |LiteralUpdate("", section, second)|;
    } else {
      forall text {
        LastWriterWins(text, section, first, second);
      }
    }
  }

  // ----- Whether an update takes effect

  lemma {:induction false} RewriteWithoutHead(text: string, head: string, write: string -> string)
    requires head != "" && !Contains(text, head)
    ensures Rewrite(text, head, write) == text
    decreases |text|
  {
    if text != "" {
      RewriteWithoutHead(text[1..], head, write);
    }
  }

  lemma {:induction false} RewriteWrites(text: string, head: string, w: string)
    requires head != "" && Contains(text, head)
    ensures Contains(Rewrite(text, head, Constant(w)), w)
    decreases |text|
  {
    var r := Rewrite(text, head, Constant(w));
    if head <= text {
      var rest := text[|head|..];
      assert r == w + Rewrite(rest[BodyLength(rest)..], head, Constant(w));
      assert w <= r;
    } else {
      RewriteWrites(text[1..], head, w);
      assert r[1..] == Rewrite(text[1..], head, Constant(w));
    }
  }

  lemma {:induction false} ContainsPrefixOf(text: string, w: string, head: string)
    requires Contains(text, w) && head <= w
    ensures Contains(text, head)
  {
    if w <= text {
      assert text[..|head|] == w[..|head|];
    } else {
      ContainsPrefixOf(text[1..], w, head);
    }
  }

  /** Exactly when an update leaves the section, with its new content, in the document: unless the
      heading occurs in the text but never before a line break. Then the text stays as it was. */
  lemma UpdateTakesEffectExactly(text: string, section: string, content: string)
    ensures var after := LiteralUpdate(text, section, content);
      var missed := Contains(text, Heading(section)) && !Contains(text, Heading(section) + "\n");
      && (Contains(after, "## " + section + "\n" + content + "\n") <==> !missed)
      && (missed ==> after == text)
  {
    var head := Heading(section) + "\n";
    var w := SectionText(section, content);
    UpdateUnfolds(text, section, content);
    if Contains(text, Heading(section)) {
      if Contains(text, head) {
        RewriteWrites(text, head, w);
      } else {
        RewriteWithoutHead(text, head, Constant(w));
        if Contains(text, w) {
          assert w == head + (content + "\n");
          ContainsPrefixOf(text, w, head);
        }
      }
    } else {
      assert w <= w && Contains(w, w);
      SuffixContains("\n", w, w);
      SuffixContains(text, "\n" + w, w);
      JoinsEqual(text, "\n", w);
    }
  }

  /** Containing is occurring at some position. */
  lemma {:induction false} ContainsExactly(text: string, part: string)
    ensures Contains(text, part) <==> exists i :: 0 <= i <= |text| && part <= text[i..]
  {
    if part <= text {
      assert text[0..] == text;
    } else if text != "" {
      ContainsExactly(text[1..], part);
      forall i | 0 < i <= |text| ensures text[i..] == text[1..][i - 1..] {
      }
      if i :| 0 <= i <= |text| && part <= text[i..] {
        assert i != 0 by { assert text[0..] == text; }
        assert part <= text[1..][i - 1..];
      }
      if j :| 0 <= j <= |text[1..]| && part <= text[1..][j..] {
        assert text[j + 1..] == text[1..][j..];
      }
    }
  }

  /** A document without the section gets it at its end. */
  lemma AppendedExactly(text: string, section: string, content: string)
    requires !Contains(text, "## " + section)
    ensures LiteralUpdate(text, section, content) == text + "\n## " + section + "\n" + content + "\n"
  {
    assert SectionText(section, content) == "## " + section + "\n" + content + "\n";
    JoinsEqual(text, "\n", SectionText(section, content));
    assert text + ("\n" + SectionText(section, content)) == text + "\n## " + section + "\n" + content + "\n";
  }

  // ----- Sections beside each other

  /** The scan of a text that a line break follows ends at an empty section: at the bare heading. */
  predicate OpenAtEnd(text: string, section: string)
    decreases |text|
  {
    var head := Heading(section) + "\n";
    if text == "" then false
    else if head <= text then OpenAtEnd(text[|head|..][BodyLength(text[|head|..])..], section)
    else text == Heading(section) || OpenAtEnd(text[1..], section)
  }

  predicate EndsWith(text: string, part: string) {
    |part| <= |text| && text[|text| - |part|..] == part
  }

  lemma EndsWithin(text: string, n: nat, part: string)
    requires n <= |text| && EndsWith(text[n..], part)
    ensures EndsWith(text, part)
  {
    assert text[n..][|text| - n - |part|..] == text[|text| - |part|..];
  }

  lemma {:induction false} OpenMeansHeadingLast(text: string, section: string)
    requires OpenAtEnd(text, section)
    ensures EndsWith(text, "## " + section)
    decreases |text|
  {
    hide BodyLength, EndsWith;
    var head := Heading(section) + "\n";
    if head <= text {
      var rest := text[|head|..];
      var after := rest[BodyLength(rest)..];
      OpenMeansHeadingLast(after, section);
      EndsWithin(rest, BodyLength(rest), Heading(section));
      EndsWithin(text, |head|, Heading(section));
    } else if text != Heading(section) {
      OpenMeansHeadingLast(text[1..], section);
      EndsWithin(text, 1, Heading(section));
    } else {
      EndsWithItself(text);
    }
  }

  lemma EndsWithItself(text: string)
    ensures EndsWith(text, text)
  {
    assert text[0..] == text;
  }

  /** A body is not made longer by a heading line that follows, and no separator runs across. */
  lemma {:induction false} BodyBeforeHeading(text: string, next: string)
    ensures BodyLength(text + ("\n## " + next)) == BodyLength(text)
  {
    var whole := text + ("\n## " + next);
    if text == "" {
      assert whole == "\n## " + next;
      assert SEPARATOR <= whole;
    } else {
      assert whole[1..] == text[1..] + ("\n## " + next);
      BodyBeforeHeading(text[1..], next);
      if |text| >= 4 {
        PrefixWithin(SEPARATOR, text, "\n## " + next);
      } else {
        assert whole[|text|] == '\n' && SEPARATOR[|text|] != '\n';
        DiffersAt(SEPARATOR, whole, |text|);
      }
    }
  }

  /** A section's heading line starts in a text that a heading line follows only if it is in that text,
      or if the text is the bare heading. */
  lemma HeadBeforeHeading(text: string, section: string, next: string)
    requires '\n' !in section && text != ""
    ensures var head := Heading(section) + "\n";
      head <= text + ("\n## " + next) <==> head <= text || text == Heading(section)
  {
    var head, whole := Heading(section) + "\n", text + ("\n## " + next);
    if |text| >= |head| {
      PrefixWithin(head, text, "\n## " + next);
    } else if |text| == |head| - 1 {
      assert whole[..|head|] == text + "\n";
      if head <= whole {
        assert head == whole[..|head|];
        assert text == head[..|text|];
      }
    } else {
      assert whole[|text|] == '\n' && head[|text|] == Heading(section)[|text|];
      DiffersAt(head, whole, |text|);
    }
  }

  lemma RewriteNothing(head: string, write: string -> string)
    requires head != ""
    ensures Rewrite("", head, write) == ""
  {
  }

  lemma RewriteAtHead(text: string, head: string, write: string -> string)
    requires head != "" && head <= text
    ensures var rest := text[|head|..];
      Rewrite(text, head, write) == write(rest[..BodyLength(rest)]) + Rewrite(rest[BodyLength(rest)..], head, write)
  {
  }

  lemma RewriteAtChar(text: string, head: string, write: string -> string)
    requires head != "" && text != "" && !(head <= text)
    ensures Rewrite(text, head, write) == [text[0]] + Rewrite(text[1..], head, write)
  {
  }

  lemma DropWithin(text: string, rest: string, n: nat)
    requires n <= |text|
    ensures (text + rest)[..n] == text[..n] && (text + rest)[n..] == text[n..] + rest
  {
  }

  /** The scan at a section's heading in a text that a heading line follows. */
  lemma ScanHead(text: string, head: string, next: string, write: string -> string)
    requires head != "" && head <= text
    ensures var rest := text[|head|..];
      Rewrite(text + ("\n## " + next), head, write)
        == write(rest[..BodyLength(rest)]) + Rewrite(rest[BodyLength(rest)..] + ("\n## " + next), head, write)
  {
    var block, rest := "\n## " + next, text[|head|..];
    PrefixWithin(head, text, block);
    RewriteAtHead(text + block, head, write);
    DropWithin(text, block, |head|);
    BodyBeforeHeading(rest, next);
    DropWithin(rest, block, BodyLength(rest));
  }

  /** One step of the scan of a text that a heading line follows: it does not look past the text. */
  lemma ScanStep(text: string, section: string, next: string, write: string -> string)
    requires '\n' !in section && text != "" && text != Heading(section)
    ensures var head, block := "## " + section + "\n", "\n## " + next;
      Rewrite(text + block, head, write) ==
        if head <= text then
          var rest := text[|head|..];
          write(rest[..BodyLength(rest)]) + Rewrite(rest[BodyLength(rest)..] + block, head, write)
        else [text[0]] + Rewrite(text[1..] + block, head, write)
  {
    var head, block := Heading(section) + "\n", "\n## " + next;
    HeadBeforeHeading(text, section, next);
    if head <= text {
      ScanHead(text, head, next, write);
    } else {
      RewriteAtChar(text + block, head, write);
      DropWithin(text, block, 1);
    }
  }

  /** What is before a second-level heading line and what starts with it are rewritten on their own,
      unless the line directly follows an empty section of the same name. */
  lemma {:induction false} SectionsSplit(text: string, section: string, next: string, write: string -> string)
    requires '\n' !in section && !OpenAtEnd(text, section)
    ensures var head := "## " + section + "\n";
      Rewrite(text + ("\n## " + next), head, write) == Rewrite(text, head, write) + Rewrite("\n## " + next, head, write)
    decreases |text|
  {
    hide Rewrite, BodyLength, Contains;
    var head, block := Heading(section) + "\n", "\n## " + next;
    var split := Rewrite(block, head, write);
    if text == "" {
      RewriteNothing(head, write);
      assert text + block == block;
    } else {
      ScanStep(text, section, next, write);
      if head <= text {
        var rest := text[|head|..];
        var after := rest[BodyLength(rest)..];
        RewriteAtHead(text, head, write);
        SectionsSplit(after, section, next, write);
        JoinsEqual(write(rest[..BodyLength(rest)]), Rewrite(after, head, write), split);
      } else {
        RewriteAtChar(text, head, write);
        SectionsSplit(text[1..], section, next, write);
        JoinsEqual([text[0]], Rewrite(text[1..], head, write), split);
      }
    }
  }

  /** In that one case the following section is taken for the empty section's body, and replaced. */
  lemma {:induction false} EmptySectionTakesNext(text: string, section: string, next: string, write: string -> string)
    returns (before: string)
    requires '\n' !in section && OpenAtEnd(text, section)
    ensures var head, taken := "## " + section + "\n", "## " + next;
      Rewrite(text + ("\n## " + next), head, write)
        == before + (write(taken[..BodyLength(taken)]) + Rewrite(taken[BodyLength(taken)..], head, write))
    decreases |text|
  {
    hide Rewrite, BodyLength, Contains;
    var head, block, taken := Heading(section) + "\n", "\n## " + next, "## " + next;
    var end := write(taken[..BodyLength(taken)]) + Rewrite(taken[BodyLength(taken)..], head, write);
    if text == Heading(section) {
      before := "";
      assert (text + block)[|head|..] == taken && head <= text + block;
      RewriteAtHead(text + block, head, write);
    } else {
      ScanStep(text, section, next, write);
      if head <= text {
        var rest := text[|head|..];
        var written := write(rest[..BodyLength(rest)]);
        before := EmptySectionTakesNext(rest[BodyLength(rest)..], section, next, write);
        JoinsEqual(written, before, end);
        before := written + before;
      } else {
        before := EmptySectionTakesNext(text[1..], section, next, write);
        JoinsEqual([text[0]], before, end);
        before := [text[0]] + before;
      }
    }
  }

  /** Another section survives an update as it is, and the texts on its two sides are updated on their
      own, unless it follows an empty section of the updated name or ends in that section's bare heading. */
  lemma OtherSectionSurvives(before: string, other: string, after: string, section: string, write: string -> string)
    requires '\n' !in section && !Contains("\n## " + other, "## " + section + "\n")
    requires !EndsWith(before, "## " + section) && !EndsWith("\n## " + other, "## " + section)
    requires after == "" || "\n## " <= after
    ensures var head, block := "## " + section + "\n", "\n## " + other;
      Rewrite(before + (block + after), head, write) == Rewrite(before, head, write) + (block + Rewrite(after, head, write))
  {
    var head, block := Heading(section) + "\n", "\n## " + other;
    if OpenAtEnd(before, section) {
      OpenMeansHeadingLast(before, section);
    }
    if OpenAtEnd(block, section) {
      OpenMeansHeadingLast(block, section);
    }
    assert block + after == "\n## " + (other + after);
    SectionsSplit(before, section, other + after, write);
    RewriteWithoutHead(block, head, write);
    if after == "" {
      assert block + after == block;
    } else {
      assert after == "\n## " + after[4..];
      SectionsSplit(block, section, after[4..], write);
    }
  }

  /** So an update of an empty section loses the section after it. */
  lemma NextSectionLost(section: string, next: string, content: string)
    requires '\n' !in section && !Contains("## " + next, "\n## ")
    ensures LiteralUpdate("## " + section + "\n## " + next, section, content) == "## " + section + "\n" + content + "\n"
  {
    var head, text, taken := Heading(section) + "\n", "## " + section + "\n## " + next, "## " + next;
    UpdateUnfolds(text, section, content);
    assert Heading(section) <= text;
    assert text[|head|..] == taken;
    assert head <= text;
    BodyToEnd(taken);
    assert taken[|taken|..] == "";
  }

  lemma {:induction false} BodyToEnd(text: string)
    requires !Contains(text, SEPARATOR)
    ensures BodyLength(text) == |text|
  {
    if text != "" {
      BodyToEnd(text[1..]);
    }
  }
}
