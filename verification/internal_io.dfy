/**
 `xtb_ase/_io.py`: the by-kind input writer `write_xtb_inputs` and the result reader
 `read_xtb_results`.
 */
module InternalIo {
  import opened Base
  import opened Dicts
  import opened InputText

  /** `write_xtb_inputs(atoms, input_filepath, geom_filepath, parameters)`. */
  function WriteXtbInputs(inputPath: string, geomPath: string, parameters: Dict<Dict<Value>>): (w: Written)
    ensures w.inputPath == inputPath && w.geometryPath == geomPath
    ensures |w.inputLines| == 2 * |parameters| + EntryCount(parameters)
  {
    RenderSize(parameters, ByKind);
    Written(inputPath, Render(parameters, ByKind), geomPath)
  }

  /** Reading the written input back recovers the whole option mapping: every section and
      entry in its iteration order, each value's text, and whether it was a non-string
      iterable (`key: value`) or anything else, strings included (`key=value`). */
  lemma WriteXtbInputsRoundTrip(inputPath: string, geomPath: string, parameters: Dict<Dict<Value>>)
    requires WellFormed(parameters)
    ensures ParseInput(WriteXtbInputs(inputPath, geomPath, parameters).inputLines) == Some(parameters)
  {
    RenderRoundTrip(parameters, ByKind);
    ByKindKeepsValues(parameters);
  }

  /** A scalar or string entry renders as `key=value`, a non-string iterable as
      `key: value`; the line starts with the key either way. */
  lemma WriteXtbInputsEntryForm(key: string, v: Value)
    ensures v.Scalar? ==> EntryLine(key, v, ByKind) == key + "=" + v.shown
    ensures v.Sequence? ==> EntryLine(key, v, ByKind) == key + ": " + v.shown
    ensures ValidKey(key) ==> ParseEntryLine(EntryLine(key, v, ByKind)) == Some((key, v))
  {
    if ValidKey(key) {
      EntryLineRoundTrip(key, v, ByKind);
    }
  }

  /** For a well-formed mapping (no key containing `=` or `:` or starting with `$`, no
      section named `end`), the input file has one `$<section>` header line and one `$end`
      line per section. */
  lemma WriteXtbInputsMarkers(inputPath: string, geomPath: string, parameters: Dict<Dict<Value>>)
    requires WellFormed(parameters)
    ensures Count(WriteXtbInputs(inputPath, geomPath, parameters).inputLines, EndMarker) == |parameters|
    ensures CountHeaders(WriteXtbInputs(inputPath, geomPath, parameters).inputLines) == |parameters|
  {
    assert WriteXtbInputs(inputPath, geomPath, parameters).inputLines == Render(parameters, ByKind);
    MarkerCounts(parameters, ByKind);
  }

  /** Section `i` of the input file is its header, its entries once each in order, and
      `$end`, placed right after the blocks of the sections before it. */
  lemma WriteXtbInputsLayout(inputPath: string, geomPath: string, parameters: Dict<Dict<Value>>, i: int)
    requires 0 <= i < |parameters|
    ensures |Render(parameters[..i], ByKind)| + |parameters[i].1| + 2
            <= |WriteXtbInputs(inputPath, geomPath, parameters).inputLines|
    ensures WriteXtbInputs(inputPath, geomPath, parameters).inputLines[..|Render(parameters[..i], ByKind)|]
            == Render(parameters[..i], ByKind)
    ensures WriteXtbInputs(inputPath, geomPath, parameters).inputLines
              [|Render(parameters[..i], ByKind)|..|Render(parameters[..i], ByKind)| + |parameters[i].1| + 2]
            == SectionLines(parameters[i].0, parameters[i].1, ByKind)
  {
    assert WriteXtbInputs(inputPath, geomPath, parameters).inputLines == Render(parameters, ByKind);
    SectionLayout(parameters, i, ByKind);
  }

  /** The list handed to `ccread`: the output file, then the gradient file if it exists. */
  function ParseFileList(outputFile: string, gradFile: string, gradExists: bool): (files: seq<string>)
    ensures 1 <= |files| <= 2 && files[0] == outputFile
    ensures |files| == 2 <==> gradExists
    ensures |files| == 2 ==> files[1] == gradFile
  {
    if gradExists then [outputFile, gradFile] else [outputFile]
  }

  /** The dictionary `read_xtb_results` returns: `energy` and `attributes` always,
      `final_atoms` and `forces` when present. */
  datatype Results<A, T> = Results(energy: real, attributes: A, finalAtoms: Option<T>, forces: Option<Block>)

  /** The returned dictionary's keys, in its iteration order. */
  function ResultKeys<A, T>(r: Results<A, T>): (ks: seq<string>)
    ensures StrictlyAscending(ks)
    ensures "energy" in ks && "attributes" in ks
    ensures "final_atoms" in ks <==> r.finalAtoms.Some?
    ensures "forces" in ks <==> r.forces.Some?
    ensures forall k :: k in ks ==> k in ["attributes", "energy", "final_atoms", "forces"]
  {
    ["attributes", "energy"]
      + (if r.finalAtoms.Some? then ["final_atoms"] else [])
      + (if r.forces.Some? then ["forces"] else [])
  }

  /** `-grads[-1, :, :] * Hartree / Bohr`. */
  function ForcesFromGradient(units: Units, g: Block): Block
  {
    ScaleBlock(g, -(units.hartree / units.bohr))
  }

  /** Forces point against the gradient: on every atom and axis their product is never
      positive, and a force component vanishes exactly where the gradient's does. */
  lemma ForcesOpposeGradient(units: Units, g: Block)
    ensures var f := ForcesFromGradient(units, g);
            && |f| == |g|
            && forall i :: 0 <= i < |g| ==>
                 && f[i].x * g[i].x <= 0.0 && f[i].y * g[i].y <= 0.0 && f[i].z * g[i].z <= 0.0
                 && (f[i].x == 0.0 <==> g[i].x == 0.0)
                 && (f[i].y == 0.0 <==> g[i].y == 0.0)
                 && (f[i].z == 0.0 <==> g[i].z == 0.0)
  {
    var c := -(units.hartree / units.bohr);
    assert c < 0.0;
    var f := ForcesFromGradient(units, g);
    forall i | 0 <= i < |g|
      ensures f[i].x * g[i].x <= 0.0 && f[i].y * g[i].y <= 0.0 && f[i].z * g[i].z <= 0.0
    {
      assert f[i].x * g[i].x == c * (g[i].x * g[i].x);
      assert f[i].y * g[i].y == c * (g[i].y * g[i].y);
      assert f[i].z * g[i].z == c * (g[i].z * g[i].z);
    }
  }

  /** `read_xtb_results(output_file, grad_file, xtb_opt_file)` as written, including the
      exceptions it raises, in the order its lines raise them. `gradFile` and `optFile` are
      `None` when the caller passes `None`. */
  function ReadXtbResults<A, T>(
    cclib: Cclib<A>, disk: Disk<T>, units: Units,
    outputFile: string, gradFile: Option<string>, optFile: Option<string>
  ): (r: Result<Results<A, T>>)
    ensures gradFile.None? ==> r == Err(AttributeError("exists"))
    ensures gradFile.Some? ==>
      var parsed := cclib.ccread(ParseFileList(outputFile, gradFile.value, disk.pathExists(gradFile.value)));
      && (parsed.None? ==> r == Err(AttributeError("scfenergies")))
      && (parsed.Some? && parsed.value.scfenergies == [] ==> r == Err(IndexError("scfenergies")))
      && (r.Ok? ==>
            && parsed.Some?
            && parsed.value.grads.Some? && parsed.value.grads.value != []
            && optFile.Some?
            && r.value.energy == Last(parsed.value.scfenergies)
            && r.value.attributes == cclib.jsanitize(parsed.value.attributes)
            && r.value.forces == Some(ForcesFromGradient(units, Last(parsed.value.grads.value)))
            && (r.value.finalAtoms.Some? <==> disk.isFile(optFile.value))
            && (r.value.finalAtoms.Some? ==> r.value.finalAtoms.value == disk.readAtoms(optFile.value)))
      && (parsed.Some? && parsed.value.scfenergies != [] && parsed.value.grads == Some([]) ==>
            r == Err(IndexError("grads")))
      && (parsed.Some? && parsed.value.scfenergies != [] && parsed.value.grads != Some([]) && optFile.None? ==>
            r == Err(TypeError("expected str, bytes or os.PathLike object, not NoneType")))
      && (parsed.Some? && parsed.value.scfenergies != [] && parsed.value.grads.None? && optFile.Some? ==>
            r == Err(UnboundLocalError("forces")))
      && ((parsed.Some? && parsed.value.scfenergies != [] && parsed.value.grads.Some?
             && parsed.value.grads.value != [] && optFile.Some?) ==> r.Ok?)
  {
    if gradFile.None? then Err(AttributeError("exists"))
    else
      var files := ParseFileList(outputFile, gradFile.value, disk.pathExists(gradFile.value));
      match cclib.ccread(files)
      case None => Err(AttributeError("scfenergies"))
      case Some(obj) =>
        if obj.scfenergies == [] then Err(IndexError("scfenergies"))
        else
          var energy := Last(obj.scfenergies);
          var attributes := cclib.jsanitize(obj.attributes);
          if obj.grads == Some([]) then Err(IndexError("grads"))
          else if optFile.None? then Err(TypeError("expected str, bytes or os.PathLike object, not NoneType"))
          else
            var finalAtoms := if disk.isFile(optFile.value) then Some(disk.readAtoms(optFile.value)) else None;
            match obj.grads
            case None => Err(UnboundLocalError("forces"))
            case Some(grads) =>
              Ok(Results(energy, attributes, finalAtoms, Some(ForcesFromGradient(units, Last(grads)))))
  }

  /** When cclib finds no gradients, line 116 reads `forces` before anything assigned it,
      so the call fails even though everything else succeeded. */
  lemma MissingGradientsFail<A, T>(
    cclib: Cclib<A>, disk: Disk<T>, units: Units,
    outputFile: string, gradFile: string, optFile: string)
    requires var parsed := cclib.ccread(ParseFileList(outputFile, gradFile, disk.pathExists(gradFile)));
             parsed.Some? && parsed.value.scfenergies != [] && parsed.value.grads.None?
    ensures ReadXtbResults(cclib, disk, units, outputFile, Some(gradFile), Some(optFile))
            == Err(UnboundLocalError("forces"))
    ensures ReadXtbResultsIntended(cclib, disk, units, outputFile, Some(gradFile), Some(optFile)).Ok?
    ensures ReadXtbResultsIntended(cclib, disk, units, outputFile, Some(gradFile), Some(optFile)).value.forces.None?
  {
  }

  /** `read_xtb_results` as its `hasattr(cclib_obj, "grads")` guard intends it: without
      gradients the dictionary simply has no `forces`. */
  function ReadXtbResultsIntended<A, T>(
    cclib: Cclib<A>, disk: Disk<T>, units: Units,
    outputFile: string, gradFile: Option<string>, optFile: Option<string>
  ): (r: Result<Results<A, T>>)
    ensures gradFile.Some? && optFile.Some? ==>
      var parsed := cclib.ccread(ParseFileList(outputFile, gradFile.value, disk.pathExists(gradFile.value)));
      && (r.Ok? <==> parsed.Some? && parsed.value.scfenergies != [] && parsed.value.grads != Some([]))
      && (r.Ok? ==>
            && r.value.energy == Last(parsed.value.scfenergies)
            && (r.value.forces.Some? <==> parsed.value.grads.Some?)
            && (r.value.forces.Some? ==>
                  r.value.forces.value == ForcesFromGradient(units, Last(parsed.value.grads.value)))
            && (r.value.finalAtoms.Some? <==> disk.isFile(optFile.value)))
    ensures r.Ok? ==> ReadXtbResults(cclib, disk, units, outputFile, gradFile, optFile)
                      == (if r.value.forces.Some? then r else Err(UnboundLocalError("forces")))
  {
    match ReadXtbResults(cclib, disk, units, outputFile, gradFile, optFile)
    case Err(UnboundLocalError(_)) =>
      var files := ParseFileList(outputFile, gradFile.value, disk.pathExists(gradFile.value));
      var obj := cclib.ccread(files).value;
      var finalAtoms := if disk.isFile(optFile.value) then Some(disk.readAtoms(optFile.value)) else None;
      Ok(Results(Last(obj.scfenergies), cclib.jsanitize(obj.attributes), finalAtoms, None))
    case other => other
  }
}
