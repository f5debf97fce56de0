/**
 The `$section ... $end` control-file syntax both xtb_ase input writers produce, at the
 level of lines: the Jinja2 templates' indentation is stripped and whitespace-only lines
 are dropped, so a rendered file is the sequence of its nonblank lines.

 Each section of the two-level option mapping becomes a `$<section>` line, one line per
 entry, and a `$end` line. An entry line is `<key>=<value>` or `<key>: <value>`; which one
 depends on the writer (`Style`). `ParseInput` reads such a file back; it exists only to
 state what the writers preserve.
 */
module InputText {
  import opened Base
  import opened Dicts

  /** An option value, classified as Jinja2's `inner_value is iterable and inner_value is
      not string` test classifies it. `shown` is the text `{{ inner_value }}` prints
      (Python's `str` of the value). */
  datatype Value =
    | Scalar(shown: string)    // numbers, booleans, None, and strings
    | Sequence(shown: string)  // lists, tuples, dicts and other non-string iterables

  /** How a writer renders one entry: by the value's kind (`_io.write_xtb_inputs`) or
      always with a colon (`io.write_xtb`). */
  datatype Style = ByKind | AlwaysColon

  type Section = seq<(string, Value)>

  /** The option mapping, section name to entries, both in iteration order. */
  type Sections = seq<(string, Section)>

  const EndMarker: string := "$end"

  /** What a writer leaves on disk: the input file's path and nonblank lines, and the path
      ASE's `write` receives the structure under. */
  datatype Written = Written(inputPath: string, inputLines: seq<string>, geometryPath: string)

  function HeaderLine(name: string): string
  {
    "$" + name
  }

  function EntryLine(key: string, v: Value, style: Style): string
  {
    if style == ByKind && v.Scalar? then key + "=" + v.shown else key + ": " + v.shown
  }

  function EntryLines(entries: Section, style: Style): seq<string>
  {
    seq(|entries|, j requires 0 <= j < |entries| => EntryLine(entries[j].0, entries[j].1, style))
  }

  function SectionLines(name: string, entries: Section, style: Style): seq<string>
  {
    [HeaderLine(name)] + EntryLines(entries, style) + [EndMarker]
  }

  /** Total number of entries over all sections. */
  function EntryCount(p: Sections): nat
  {
    if p == [] then 0 else |p[0].1| + EntryCount(p[1..])
  }

  /** The nonblank lines of the rendered file, one block per section in iteration order. */
  function Render(p: Sections, style: Style): seq<string>
  {
    if p == [] then [] else SectionLines(p[0].0, p[0].1, style) + Render(p[1..], style)
  }

  /** Every section contributes its header, its `$end` and one line per entry, so the
      file is empty exactly when the mapping is. */
  lemma {:induction false} RenderSize(p: Sections, style: Style)
    ensures |Render(p, style)| == 2 * |p| + EntryCount(p)
    ensures Render(p, style) == [] <==> p == []
    decreases |p|
  {
    if p != [] {
      RenderSize(p[1..], style);
    }
  }

  // ---------------------------------------------------------------------------
  // Reading a rendered file back.

  predicate IsDelim(c: char)
  {
    c == '=' || c == ':'
  }

  /** The index of the first `=` or `:` in `s`, or `|s|` when there is none. */
  function FirstDelim(s: string): (i: nat)
    ensures i <= |s|
    ensures i < |s| ==> IsDelim(s[i])
    ensures forall j :: 0 <= j < i ==> !IsDelim(s[j])
  {
    if s == [] then 0
    else if IsDelim(s[0]) then 0
    else
      var i := FirstDelim(s[1..]);
      assert forall j :: 1 <= j < i + 1 ==> s[j] == s[1..][j - 1];
      1 + i
  }

  /** Splits an entry line at its first delimiter: `k=v` is a scalar, `k: v` a sequence. */
  function ParseEntryLine(line: string): Option<(string, Value)>
  {
    var i := FirstDelim(line);
    if i == |line| then None
    else if line[i] == '=' then Some((line[..i], Scalar(line[i + 1..])))
    else if i + 1 < |line| && line[i + 1] == ' ' then Some((line[..i], Sequence(line[i + 2..])))
    else None
  }

  predicate StartsWithDollar(line: string)
  {
    |line| > 0 && line[0] == '$'
  }

  predicate IsHeaderLine(line: string)
  {
    StartsWithDollar(line) && line != EndMarker
  }

  /** Reads entry lines up to and including the next `$end`; returns them and the lines
      after the `$end`. */
  function ParseEntries(ls: seq<string>): (r: Option<(Section, seq<string>)>)
    ensures r.Some? ==> |r.value.1| < |ls|
  {
    if ls == [] then None
    else if ls[0] == EndMarker then Some(([], ls[1..]))
    else if StartsWithDollar(ls[0]) then None
    else
      match ParseEntryLine(ls[0])
      case None => None
      case Some(e) =>
        match ParseEntries(ls[1..])
        case None => None
        case Some(more) => Some(([e] + more.0, more.1))
  }

  /** Reads a whole file: a sequence of `$<section>` ... `$end` blocks. */
  function ParseInput(ls: seq<string>): Option<Sections>
    decreases |ls|
  {
    if ls == [] then Some([])
    else if !IsHeaderLine(ls[0]) then None
    else
      match ParseEntries(ls[1..])
      case None => None
      case Some(body) =>
        match ParseInput(body.1)
        case None => None
        case Some(more) => Some([(ls[0][1..], body.0)] + more)
  }

  // ---------------------------------------------------------------------------
  // What the writers preserve.

  /** A key the line syntax can carry unambiguously: no `=` or `:` in it, and it does not
      start with `$`. */
  predicate ValidKey(k: string)
  {
    (forall c :: c in k ==> !IsDelim(c)) && !StartsWithDollar(k)
  }

  predicate ValidEntries(entries: Section)
  {
    forall j :: 0 <= j < |entries| ==> ValidKey(entries[j].0)
  }

  /** A section named `end` would be read as a section terminator. */
  predicate ValidSection(s: (string, Section))
  {
    s.0 != "end" && ValidEntries(s.1)
  }

  predicate WellFormed(p: Sections)
  {
    forall i :: 0 <= i < |p| ==> ValidSection(p[i])
  }

  /** The value as a reader of `style`'s output recovers it: the colon-only writer loses
      the scalar/sequence distinction. */
  function Restyle(v: Value, style: Style): Value
  {
    if style == AlwaysColon then Sequence(v.shown) else v
  }

  function RestyleSection(entries: Section, style: Style): Section
  {
    seq(|entries|, j requires 0 <= j < |entries| => (entries[j].0, Restyle(entries[j].1, style)))
  }

  function RestyleSections(p: Sections, style: Style): Sections
  {
    seq(|p|, i requires 0 <= i < |p| => (p[i].0, RestyleSection(p[i].1, style)))
  }

  /** One entry line reads back as its key and value, and can be mistaken neither for a
      header nor for `$end`. */
  lemma EntryLineRoundTrip(key: string, v: Value, style: Style)
    requires ValidKey(key)
    ensures ParseEntryLine(EntryLine(key, v, style)) == Some((key, Restyle(v, style)))
    ensures !StartsWithDollar(EntryLine(key, v, style))
  {
    var line := EntryLine(key, v, style);
    assert line[..|key|] == key;
    assert forall j :: 0 <= j < |key| ==> line[j] == key[j];
    assert forall j :: 0 <= j < |key| ==> !IsDelim(line[j]);
    assert IsDelim(line[|key|]);
    var i := FirstDelim(line);
    assert i == |key|;
    if style == ByKind && v.Scalar? {
      assert line[|key| + 1..] == v.shown;
    } else {
      assert line[|key| + 2..] == v.shown;
    }
  }

  /** Reading one entry line in front of more lines. */
  lemma ParseEntriesCons(line: string, more: seq<string>)
    requires !StartsWithDollar(line)
    requires ParseEntryLine(line).Some? && ParseEntries(more).Some?
    ensures ParseEntries([line] + more)
            == Some(([ParseEntryLine(line).value] + ParseEntries(more).value.0, ParseEntries(more).value.1))
  {
    var ls := [line] + more;
    assert ls[0] == line && ls[1..] == more;
    assert line != EndMarker by {
      assert EndMarker[0] == '$';
    }
  }

  /** Reading one section's header in front of its body and the sections after it. */
  lemma ParseInputCons(header: string, body: seq<string>)
    requires IsHeaderLine(header)
    requires ParseEntries(body).Some? && ParseInput(ParseEntries(body).value.1).Some?
    ensures ParseInput([header] + body)
            == Some([(header[1..], ParseEntries(body).value.0)] + ParseInput(ParseEntries(body).value.1).value)
  {
    var ls := [header] + body;
    assert ls[0] == header && ls[1..] == body;
  }

  lemma EntryLinesCons(entries: Section, style: Style)
    requires entries != []
    ensures EntryLines(entries, style)
            == [EntryLine(entries[0].0, entries[0].1, style)] + EntryLines(entries[1..], style)
  {
  }

  lemma RestyleSectionCons(entries: Section, style: Style)
    requires entries != []
    ensures RestyleSection(entries, style)
            == [(entries[0].0, Restyle(entries[0].1, style))] + RestyleSection(entries[1..], style)
  {
  }

  lemma RestyleSectionsCons(p: Sections, style: Style)
    requires p != []
    ensures RestyleSections(p, style)
            == [(p[0].0, RestyleSection(p[0].1, style))] + RestyleSections(p[1..], style)
  {
  }

  lemma ValidEntriesTail(entries: Section)
    requires ValidEntries(entries) && entries != []
    ensures ValidKey(entries[0].0) && ValidEntries(entries[1..])
  {
    forall j | 0 <= j < |entries[1..]| ensures ValidKey(entries[1..][j].0) {
      assert entries[1..][j] == entries[j + 1];
    }
  }

  lemma WellFormedTail(p: Sections)
    requires WellFormed(p) && p != []
    ensures ValidSection(p[0]) && WellFormed(p[1..])
  {
    forall i | 0 <= i < |p[1..]| ensures ValidSection(p[1..][i]) {
      assert p[1..][i] == p[i + 1];
    }
  }

  /** A header line is recognised as one, and gives its section name back, unless the
      section is named `end`. */
  lemma HeaderLineRead(name: string)
    requires name != "end"
    ensures IsHeaderLine(HeaderLine(name)) && HeaderLine(name)[1..] == name
  {
    assert HeaderLine(name)[1..] == name;
    assert EndMarker[1..] == "end";
  }

  lemma RenderHead(p: Sections, style: Style)
    requires p != []
    ensures Render(p, style) == SectionLines(p[0].0, p[0].1, style) + Render(p[1..], style)
  {
  }

  lemma RenderCons(p: Sections, style: Style)
    requires p != []
    ensures Render(p, style)
            == [HeaderLine(p[0].0)] + (EntryLines(p[0].1, style) + [EndMarker] + Render(p[1..], style))
  {
  }

  /** The entry lines of a section followed by `$end` read back as the section. */
  lemma {:induction false} EntriesRoundTrip(entries: Section, rest: seq<string>, style: Style)
    requires ValidEntries(entries)
    ensures ParseEntries(EntryLines(entries, style) + [EndMarker] + rest)
            == Some((RestyleSection(entries, style), rest))
    decreases |entries|
  {
    var ls := EntryLines(entries, style) + [EndMarker] + rest;
    if entries == [] {
      assert ls == [EndMarker] + rest;
      assert ls[1..] == rest;
      assert RestyleSection(entries, style) == [];
    } else {
      var first := EntryLine(entries[0].0, entries[0].1, style);
      var tail := EntryLines(entries[1..], style) + [EndMarker] + rest;
      EntryLinesCons(entries, style);
      assert ls == [first] + tail;
      ValidEntriesTail(entries);
      EntryLineRoundTrip(entries[0].0, entries[0].1, style);
      EntriesRoundTrip(entries[1..], rest, style);
      ParseEntriesCons(first, tail);
      RestyleSectionCons(entries, style);
    }
  }

  /** Reading a rendered file back recovers every section name, every key, every value's
      text and, for the by-kind writer, every value's kind, all in the original order. */
  lemma {:induction false} RenderRoundTrip(p: Sections, style: Style)
    requires WellFormed(p)
    ensures ParseInput(Render(p, style)) == Some(RestyleSections(p, style))
    decreases |p|
  {
    if p != [] {
      var header := HeaderLine(p[0].0);
      var body := EntryLines(p[0].1, style) + [EndMarker] + Render(p[1..], style);
      RenderCons(p, style);
      WellFormedTail(p);
      HeaderLineRead(p[0].0);
      EntriesRoundTrip(p[0].1, Render(p[1..], style), style);
      RenderRoundTrip(p[1..], style);
      ParseInputCons(header, body);
      RestyleSectionsCons(p, style);
    } else {
      assert RestyleSections(p, style) == [];
    }
  }

  /** The by-kind writer loses nothing. */
  lemma ByKindKeepsValues(p: Sections)
    ensures RestyleSections(p, ByKind) == p
  {
    forall i | 0 <= i < |p| ensures RestyleSections(p, ByKind)[i] == p[i] {
      assert RestyleSection(p[i].1, ByKind) == p[i].1;
    }
  }

  // ---------------------------------------------------------------------------
  // Layout.

  /** Rendering distributes over concatenation of mappings. */
  lemma {:induction false} RenderAppend(a: Sections, b: Sections, style: Style)
    ensures Render(a + b, style) == Render(a, style) + Render(b, style)
    decreases |a|
  {
    if a != [] {
      var head := SectionLines(a[0].0, a[0].1, style);
      var ab := a + b;
      assert ab[0] == a[0];
      assert ab[1..] == a[1..] + b;
      assert Render(ab, style) == head + Render(ab[1..], style);
      RenderAppend(a[1..], b, style);
      var x, y := Render(a[1..], style), Render(b, style);
      assert head + (x + y) == (head + x) + y;
    } else {
      assert a + b == b;
    }
  }

  /** The rendered file cut around section `i`. */
  lemma RenderSplit(p: Sections, i: int, style: Style)
    requires 0 <= i < |p|
    ensures Render(p, style)
            == Render(p[..i], style) + SectionLines(p[i].0, p[i].1, style) + Render(p[i + 1..], style)
  {
    var q := p[i..];
    assert p == p[..i] + q;
    RenderAppend(p[..i], q, style);
    assert q[0] == p[i] && q[1..] == p[i + 1..];
    RenderHead(q, style);
  }

  lemma MiddleSlice<T>(a: seq<T>, b: seq<T>, c: seq<T>)
    ensures (a + b + c)[..|a|] == a
    ensures (a + b + c)[|a|..|a| + |b|] == b
  {
    assert (a + b + c)[..|a|] == a;
    assert (a + b + c)[|a|..|a| + |b|] == b;
  }

  /** A section's block: its header, each entry's line in the section's order, then
      `$end`. */
  lemma SectionLinesShape(name: string, entries: Section, style: Style)
    ensures |SectionLines(name, entries, style)| == |entries| + 2
    ensures SectionLines(name, entries, style)[0] == HeaderLine(name)
    ensures forall j :: 0 <= j < |entries| ==>
              SectionLines(name, entries, style)[1 + j] == EntryLine(entries[j].0, entries[j].1, style)
    ensures SectionLines(name, entries, style)[|entries| + 1] == EndMarker
  {
    var block := SectionLines(name, entries, style);
    forall j | 0 <= j < |entries|
      ensures block[1 + j] == EntryLine(entries[j].0, entries[j].1, style)
    {
      assert block[1 + j] == EntryLines(entries, style)[j];
    }
  }

  /** Section `i` occupies a contiguous block right after the rendering of the sections
      before it, and that block is exactly section `i`'s lines (see `SectionLinesShape`). */
  lemma SectionLayout(p: Sections, i: int, style: Style)
    requires 0 <= i < |p|
    ensures |Render(p[..i], style)| + |p[i].1| + 2 <= |Render(p, style)|
    ensures Render(p, style)[..|Render(p[..i], style)|] == Render(p[..i], style)
    ensures Render(p, style)[|Render(p[..i], style)|..|Render(p[..i], style)| + |p[i].1| + 2]
            == SectionLines(p[i].0, p[i].1, style)
  {
    RenderSplit(p, i, style);
    SectionLinesShape(p[i].0, p[i].1, style);
    MiddleSlice(Render(p[..i], style), SectionLines(p[i].0, p[i].1, style), Render(p[i + 1..], style));
  }

  /** Occurrences of `s` in `ls`. */
  function Count(ls: seq<string>, s: string): nat
  {
    if ls == [] then 0 else (if ls[0] == s then 1 else 0) + Count(ls[1..], s)
  }

  function CountHeaders(ls: seq<string>): nat
  {
    if ls == [] then 0 else (if IsHeaderLine(ls[0]) then 1 else 0) + CountHeaders(ls[1..])
  }

  lemma {:induction false} CountsAppend(a: seq<string>, b: seq<string>, s: string)
    ensures Count(a + b, s) == Count(a, s) + Count(b, s)
    ensures CountHeaders(a + b) == CountHeaders(a) + CountHeaders(b)
    decreases |a|
  {
    if a != [] {
      assert (a + b)[0] == a[0];
      assert (a + b)[1..] == a[1..] + b;
      CountsAppend(a[1..], b, s);
      assert Count(a + b, s) == (if a[0] == s then 1 else 0) + Count(a[1..] + b, s);
      assert CountHeaders(a + b) == (if IsHeaderLine(a[0]) then 1 else 0) + CountHeaders(a[1..] + b);
    } else {
      assert a + b == b;
    }
  }

  lemma {:induction false} EntryLinesCounts(entries: Section, style: Style)
    requires ValidEntries(entries)
    ensures Count(EntryLines(entries, style), EndMarker) == 0
    ensures CountHeaders(EntryLines(entries, style)) == 0
    decreases |entries|
  {
    var ls := EntryLines(entries, style);
    if entries != [] {
      EntryLineRoundTrip(entries[0].0, entries[0].1, style);
      assert ls[0] == EntryLine(entries[0].0, entries[0].1, style);
      assert ls[1..] == EntryLines(entries[1..], style);
      EntryLinesCounts(entries[1..], style);
    }
  }

  /** A rendered file has exactly one header line and exactly one `$end` per section. */
  lemma {:induction false} MarkerCounts(p: Sections, style: Style)
    requires WellFormed(p)
    ensures Count(Render(p, style), EndMarker) == |p|
    ensures CountHeaders(Render(p, style)) == |p|
    decreases |p|
  {
    if p != [] {
      assert ValidSection(p[0]);
      var h := [HeaderLine(p[0].0)];
      var body := EntryLines(p[0].1, style);
      assert IsHeaderLine(h[0]) by {
        assert h[0][1..] == p[0].0;
        assert EndMarker[1..] == "end";
      }
      assert Count(h, EndMarker) == 0 && CountHeaders(h) == 1;
      assert Count([EndMarker], EndMarker) == 1 && CountHeaders([EndMarker]) == 0;
      EntryLinesCounts(p[0].1, style);
      CountsAppend(h, body, EndMarker);
      CountsAppend(h + body, [EndMarker], EndMarker);
      CountsAppend(SectionLines(p[0].0, p[0].1, style), Render(p[1..], style), EndMarker);
      assert WellFormed(p[1..]) by {
        forall i | 0 <= i < |p[1..]| ensures ValidSection(p[1..][i]) {
          assert p[1..][i] == p[i + 1];
        }
      }
      MarkerCounts(p[1..], style);
    }
  }

}
