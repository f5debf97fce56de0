/**
 `xtb_ase/io.py`: the colon-only input writer `write_xtb`, its choice of geometry file,
 and `read_xtb`.
 */
module Io {
  import opened Base
  import opened Dicts
  import opened InputText

  /** `atoms.pbc`: periodicity along each of the three cell vectors. */
  datatype Pbc = Pbc(a: bool, b: bool, c: bool)

  predicate AnyPeriodic(pbc: Pbc)
  {
    pbc.a || pbc.b || pbc.c
  }

  /** The geometry file name `write_xtb` picks. */
  function GeometryFile(pbc: Pbc): (name: string)
    ensures name == "POSCAR" || name == "coord.xyz"
  {
    if AnyPeriodic(pbc) then "POSCAR" else "coord.xyz"
  }

  /** A single periodic axis is enough for `POSCAR`; only a structure periodic along no
      axis gets `coord.xyz`. */
  lemma GeometryFileChoice(pbc: Pbc)
    ensures GeometryFile(pbc) == "coord.xyz" <==> !pbc.a && !pbc.b && !pbc.c
    ensures GeometryFile(Pbc(true, false, false)) == "POSCAR"
    ensures GeometryFile(Pbc(true, true, true)) == "POSCAR"
    ensures GeometryFile(Pbc(false, false, false)) == "coord.xyz"
  {
  }

  /** `write_xtb(atoms, directory, input_file, parameters)`; only `atoms.pbc` is looked at. */
  function WriteXtb(pbc: Pbc, directory: string, inputFile: string, parameters: Dict<Dict<Value>>): (w: Written)
    ensures w.inputPath == JoinPath(directory, inputFile)
    ensures w.geometryPath == JoinPath(directory, GeometryFile(pbc))
    ensures |w.inputLines| == 2 * |parameters| + EntryCount(parameters)
  {
    RenderSize(parameters, AlwaysColon);
    Written(JoinPath(directory, inputFile), Render(parameters, AlwaysColon), JoinPath(directory, GeometryFile(pbc)))
  }

  /** Every entry becomes `key: value`, whatever the value's kind; there is no `=` form. */
  lemma WriteXtbEntryForm(key: string, v: Value)
    ensures EntryLine(key, v, AlwaysColon) == key + ": " + v.shown
  {
  }

  /** Reading the written input back recovers every section, key and value text in
      iteration order; every value reads back as a sequence-style entry, since the writer
      does not tell scalars from iterables. */
  lemma WriteXtbRoundTrip(pbc: Pbc, directory: string, inputFile: string, parameters: Dict<Dict<Value>>)
    requires WellFormed(parameters)
    ensures ParseInput(WriteXtb(pbc, directory, inputFile, parameters).inputLines)
            == Some(RestyleSections(parameters, AlwaysColon))
    ensures forall i, j :: 0 <= i < |parameters| && 0 <= j < |parameters[i].1| ==>
              RestyleSections(parameters, AlwaysColon)[i].1[j]
              == (parameters[i].1[j].0, Sequence(parameters[i].1[j].1.shown))
  {
    RenderRoundTrip(parameters, AlwaysColon);
  }

  /** For a well-formed mapping (no key containing `=` or `:` or starting with `$`, no
      section named `end`), the input file has one `$<section>` header line and one `$end`
      line per section. */
  lemma WriteXtbMarkers(pbc: Pbc, directory: string, inputFile: string, parameters: Dict<Dict<Value>>)
    requires WellFormed(parameters)
    ensures Count(WriteXtb(pbc, directory, inputFile, parameters).inputLines, EndMarker) == |parameters|
    ensures CountHeaders(WriteXtb(pbc, directory, inputFile, parameters).inputLines) == |parameters|
  {
    assert WriteXtb(pbc, directory, inputFile, parameters).inputLines == Render(parameters, AlwaysColon);
    MarkerCounts(parameters, AlwaysColon);
  }

  /** The block `write_xtb`'s template prints for one section: `$<section>`, one
      `key: value` line per entry in order, and `$end`. */
  function ColonBlock(name: string, entries: Section): (block: seq<string>)
    ensures |block| == |entries| + 2
  {
    [HeaderLine(name)]
      + seq(|entries|, j requires 0 <= j < |entries| => entries[j].0 + ": " + entries[j].1.shown)
      + [EndMarker]
  }

  /** The shared renderer in colon style prints exactly `ColonBlock` for each section. */
  lemma ColonStyleIsColonBlock(name: string, entries: Section)
    ensures SectionLines(name, entries, AlwaysColon) == ColonBlock(name, entries)
  {
    SectionLinesShape(name, entries, AlwaysColon);
    var a, b := SectionLines(name, entries, AlwaysColon), ColonBlock(name, entries);
    forall k | 0 <= k < |a| ensures a[k] == b[k] {
      if 1 <= k <= |entries| {
        WriteXtbEntryForm(entries[k - 1].0, entries[k - 1].1);
      }
    }
  }

  /** Section `i` of the input file starts right after the lines of the sections before it
      and is exactly its `ColonBlock`: header, `key: value` lines in order, `$end`. */
  lemma WriteXtbLayout(pbc: Pbc, directory: string, inputFile: string, parameters: Dict<Dict<Value>>, i: int)
    requires 0 <= i < |parameters|
    ensures |Render(parameters[..i], AlwaysColon)| + |parameters[i].1| + 2
            <= |WriteXtb(pbc, directory, inputFile, parameters).inputLines|
    ensures WriteXtb(pbc, directory, inputFile, parameters).inputLines[..|Render(parameters[..i], AlwaysColon)|]
            == Render(parameters[..i], AlwaysColon)
    ensures WriteXtb(pbc, directory, inputFile, parameters).inputLines
              [|Render(parameters[..i], AlwaysColon)|..|Render(parameters[..i], AlwaysColon)| + |parameters[i].1| + 2]
            == ColonBlock(parameters[i].0, parameters[i].1)
  {
    assert WriteXtb(pbc, directory, inputFile, parameters).inputLines == Render(parameters, AlwaysColon);
    SectionLayout(parameters, i, AlwaysColon);
    ColonStyleIsColonBlock(parameters[i].0, parameters[i].1);
  }

  /** `read_xtb(outputfile)`: cclib's parse of the file, or `RuntimeError` when there is
      none. */
  function ReadXtb<A>(cclib: Cclib<A>, outputFile: string): (r: Result<Parsed<A>>)
    ensures r.Ok? <==> cclib.ccread([outputFile]).Some?
    ensures r.Ok? ==> r.value == cclib.ccread([outputFile]).value
    ensures r.Err? ==> r.error == RuntimeError("Could not read " + outputFile)
  {
    match cclib.ccread([outputFile])
    case None => Err(RuntimeError("Could not read " + outputFile))
    case Some(obj) => Ok(obj)
  }
}
