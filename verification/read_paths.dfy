/**
 The two result readers side by side: `_io.read_xtb_results` and
 `xTBTemplate.read_results` given the same cclib parse.
 */
module ReadPaths {
  import opened Base
  import InternalIo
  import Calculator

  /** Whenever `read_xtb_results` succeeds and `read_results` sees the same parse, the
      template's energy is the other's multiplied by Hartree, its forces are the other's
      negated, and the attributes agree; `ReadResultsNegated` agrees on the forces. */
  lemma ReadersDisagreeOnUnitsAndSign<A, T>(
    cclib: Cclib<A>, disk: Disk<T>, units: Units,
    outputFile: string, gradFile: string, optFile: string, directory: string)
    requires cclib.ccread(InternalIo.ParseFileList(outputFile, gradFile, disk.pathExists(gradFile)))
             == cclib.ccread([JoinPath(directory, "xtb.out")])
    requires InternalIo.ReadXtbResults(cclib, disk, units, outputFile, Some(gradFile), Some(optFile)).Ok?
    ensures var a := InternalIo.ReadXtbResults(cclib, disk, units, outputFile, Some(gradFile), Some(optFile)).value;
            var b := Calculator.ReadResults(cclib, units, directory);
            && b.Ok?
            && b.value.energy.Some? && b.value.energy.value == a.energy * units.hartree
            && a.forces.Some? && b.value.forces == Some(ScaleBlock(a.forces.value, -1.0))
            && b.value.attributes == a.attributes
    ensures var a := InternalIo.ReadXtbResults(cclib, disk, units, outputFile, Some(gradFile), Some(optFile)).value;
            Calculator.ReadResultsNegated(cclib, units, directory).value.forces == a.forces
  {
    var parsed := cclib.ccread([JoinPath(directory, "xtb.out")]).value;
    var k := units.hartree / units.bohr;
    ScaleBlockNegated(Last(parsed.grads.value), k);
    var g := ScaleBlock(Last(parsed.grads.value), k);
    ScaleBlockNegated(g, -1.0);
    assert ScaleBlock(g, -1.0) == ScaleBlock(Last(parsed.grads.value), -k);
    assert ScaleBlock(ScaleBlock(g, -1.0), -1.0) == g by {
      forall i | 0 <= i < |g| ensures ScaleBlock(ScaleBlock(g, -1.0), -1.0)[i] == g[i] {
      }
    }
    var a := InternalIo.ReadXtbResults(cclib, disk, units, outputFile, Some(gradFile), Some(optFile)).value;
    var b := Calculator.ReadResults(cclib, units, directory);
    assert a.forces == Some(ScaleBlock(Last(parsed.grads.value), -k));
    assert b.Ok?;
    assert b.value.forces == Some(g);
    assert a.energy == Last(parsed.scfenergies);
  }
}
