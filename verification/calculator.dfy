/**
 `xtb_ase/calculator.py`: the profile that builds the xtb command line, the calculator
 template with its fixed file names, keyword defaults and result reader, and the choice
 of profile when an `xTB` calculator is constructed.
 */
module Calculator {
  import opened Base
  import opened Dicts
  import Io

  const Label: string := "xtb"

  /** `xTBProfile`: the command line that starts xtb, without the input file. */
  datatype Profile = Profile(argv: seq<string>)

  /** The subprocess `xTBProfile.run` starts: its argument vector, its working directory
      and the path its standard output file is opened at. `cwd` applies to the child only:
      `stdout` is opened by the calling process, so a relative `stdout` resolves against the
      caller's working directory, not against `cwd`. */
  datatype Invocation = Invocation(cmd: seq<string>, cwd: string, stdout: string)

  /** `xTBProfile.run(directory, inputfile, outputfile)`: the profile's arguments followed
      by the input file name; the profile itself is left as it was. */
  function Run(profile: Profile, directory: string, inputFile: string, outputFile: string): (inv: Invocation)
    ensures |inv.cmd| == |profile.argv| + 1
    ensures inv.cmd[..|profile.argv|] == profile.argv
    ensures Last(inv.cmd) == inputFile
    ensures inv.cwd == directory && inv.stdout == outputFile
  {
    Invocation(profile.argv + [inputFile], directory, outputFile)
  }

  /** `xTBTemplate`: its name, the properties it promises, and its file names. */
  datatype Template = Template(name: string, implementedProperties: seq<string>, inputFile: string, outputFile: string)

  /** `xTBTemplate()`. */
  function NewTemplate(): (t: Template)
    ensures t.name == "xtb"
    ensures t.implementedProperties == ["energy", "forces", "attributes"]
    ensures t.inputFile == "xtb.inp" && t.outputFile == "xtb.out"
  {
    Template(Label, ["energy", "forces", "attributes"], Label + ".inp", Label + ".out")
  }

  /** `xTBTemplate.execute(directory, profile)`. */
  function Execute(t: Template, directory: string, profile: Profile): Invocation
  {
    Run(profile, directory, t.inputFile, t.outputFile)
  }

  /** A template always runs the profile on `xtb.inp` and captures output in `xtb.out`. */
  lemma ExecuteUsesFixedFiles(directory: string, profile: Profile)
    ensures Execute(NewTemplate(), directory, profile)
            == Invocation(profile.argv + ["xtb.inp"], directory, "xtb.out")
  {
  }

  /** `execute` with the output file placed in the calculation directory, where
      `read_results` looks for it. */
  function ExecuteIntended(t: Template, directory: string, profile: Profile): (inv: Invocation)
    ensures inv.cmd == profile.argv + [t.inputFile] && inv.cwd == directory
    ensures inv.stdout == JoinPath(directory, t.outputFile)
  {
    Run(profile, directory, t.inputFile, JoinPath(directory, t.outputFile))
  }

  /** As written, xtb's output goes to `xtb.out` relative to the caller's working directory,
      while `read_results` reads `directory/xtb.out`. The two path strings always differ;
      they name the same file only when `directory` is the caller's working directory (the
      default `.`). The corrected `execute` writes exactly where `read_results` reads. */
  lemma OutputWrittenWhereNotRead(directory: string, profile: Profile)
    ensures Execute(NewTemplate(), directory, profile).stdout == "xtb.out"
    ensures Execute(NewTemplate(), directory, profile).stdout != JoinPath(directory, NewTemplate().outputFile)
    ensures ExecuteIntended(NewTemplate(), directory, profile).stdout == JoinPath(directory, NewTemplate().outputFile)
    ensures ExecuteIntended(NewTemplate(), directory, profile).cmd == Execute(NewTemplate(), directory, profile).cmd
  {
    assert |JoinPath(directory, "xtb.out")| > |"xtb.out"|;
  }

  /** The keywords `write_input` starts from before the caller's are applied. */
  const DefaultKeywords: Dict<PyValue> := [
    ("charge", PyInt(0)),
    ("mult", PyInt(1)),
    ("orcasimpleinput", PyStr("B3LYP def2-TZVP")),
    ("orcablocks", PyStr("%pal nprocs 1 end"))
  ]

  /** The keyword dictionary `write_input` builds: `kw.update(parameters)` on the
      defaults. Caller keywords win, defaults the caller leaves out survive, the defaults
      keep their leading positions and the key set is the union. */
  function WriteInputKeywords(parameters: Dict<PyValue>): (kw: Dict<PyValue>)
    ensures Keys(kw) == Keys(DefaultKeywords) + Keys(parameters)
    ensures forall k :: k in Keys(parameters) ==> Get(kw, k) == Get(parameters, k)
    ensures forall k :: k !in Keys(parameters) ==> Get(kw, k) == Get(DefaultKeywords, k)
    ensures |kw| >= 4 && KeySeq(kw)[..4] == ["charge", "mult", "orcasimpleinput", "orcablocks"]
  {
    UpdateSpec(DefaultKeywords, parameters);
    assert KeySeq(DefaultKeywords) == ["charge", "mult", "orcasimpleinput", "orcablocks"];
    Update(DefaultKeywords, parameters)
  }

  /** Each default survives exactly when the caller does not supply its key. */
  lemma DefaultKeywordsSurvive(parameters: Dict<PyValue>)
    ensures Get(WriteInputKeywords(parameters), "charge")
            == if "charge" in Keys(parameters) then Get(parameters, "charge") else Some(PyInt(0))
    ensures Get(WriteInputKeywords(parameters), "mult")
            == if "mult" in Keys(parameters) then Get(parameters, "mult") else Some(PyInt(1))
    ensures Get(WriteInputKeywords(parameters), "orcasimpleinput")
            == if "orcasimpleinput" in Keys(parameters) then Get(parameters, "orcasimpleinput")
               else Some(PyStr("B3LYP def2-TZVP"))
    ensures Get(WriteInputKeywords(parameters), "orcablocks")
            == if "orcablocks" in Keys(parameters) then Get(parameters, "orcablocks")
               else Some(PyStr("%pal nprocs 1 end"))
  {
    var d := DefaultKeywords;
    IndexOfUnique(d, "charge", 0);
    IndexOfUnique(d, "mult", 1);
    IndexOfUnique(d, "orcasimpleinput", 2);
    IndexOfUnique(d, "orcablocks", 3);
  }

  /** The dictionary `read_results` returns; `energy` and `forces` hold `None` when cclib
      found nothing to put there. */
  datatype CalcResults<A> = CalcResults(energy: Option<real>, forces: Option<Block>, attributes: A)

  /** The returned dictionary's keys: always all three, and exactly the template's
      implemented properties. */
  function CalcResultKeys<A>(r: CalcResults<A>): (ks: seq<string>)
    ensures ks == NewTemplate().implementedProperties
  {
    ["energy", "forces", "attributes"]
  }

  /** `grads[-1, :, :] * (Hartree / Bohr)`, without a change of sign. */
  function ScaledLastGradient(units: Units, grads: seq<Block>): Block
    requires grads != []
  {
    ScaleBlock(Last(grads), units.hartree / units.bohr)
  }

  /** `xTBTemplate.read_results(directory)` as written. */
  function ReadResults<A>(cclib: Cclib<A>, units: Units, directory: string): (r: Result<CalcResults<A>>)
    ensures var path := JoinPath(directory, "xtb.out");
            var parsed := cclib.ccread([path]);
            && (parsed.None? ==> r == Err(RuntimeError("Could not read " + path)))
            && (parsed.Some? && parsed.value.grads.None? ==> r == Err(AttributeError("grads")))
            && (parsed.Some? && parsed.value.grads.Some? ==>
                  && r.Ok?
                  && (r.value.energy.Some? <==> parsed.value.scfenergies != [])
                  && (r.value.energy.Some? ==>
                        r.value.energy.value == Last(parsed.value.scfenergies) * units.hartree)
                  && (r.value.forces.Some? <==> parsed.value.grads.value != [])
                  && (r.value.forces.Some? ==>
                        r.value.forces.value == ScaleBlock(Last(parsed.value.grads.value), units.hartree / units.bohr))
                  && r.value.attributes == cclib.jsanitize(parsed.value.attributes))
  {
    match Io.ReadXtb(cclib, JoinPath(directory, NewTemplate().outputFile))
    case Err(e) => Err(e)
    case Ok(obj) =>
      var energy := if obj.scfenergies != [] then Some(Last(obj.scfenergies) * units.hartree) else None;
      match obj.grads
      case None => Err(AttributeError("grads"))
      case Some(grads) =>
        var forces := if grads != [] then Some(ScaledLastGradient(units, grads)) else None;
        Ok(CalcResults(energy, forces, cclib.jsanitize(obj.attributes)))
  }

  /** `read_results` with forces as the negated gradient, as `_io.read_xtb_results`
      computes them; everything else as `ReadResults`. */
  function ReadResultsNegated<A>(cclib: Cclib<A>, units: Units, directory: string): (r: Result<CalcResults<A>>)
    ensures var parsed := cclib.ccread([JoinPath(directory, "xtb.out")]);
            && (parsed.Some? && parsed.value.grads.Some? && parsed.value.grads.value != [] ==>
                  && r.Ok? && r.value.forces.Some?
                  && r.value.forces.value
                     == ScaleBlock(Last(parsed.value.grads.value), -(units.hartree / units.bohr)))
    ensures var original := ReadResults(cclib, units, directory);
            && (r.Err? ==> r == original)
            && (r.Ok? ==>
                  && original.Ok?
                  && r.value.energy == original.value.energy
                  && r.value.attributes == original.value.attributes
                  && (r.value.forces.Some? <==> original.value.forces.Some?))
  {
    match ReadResults(cclib, units, directory)
    case Err(e) => Err(e)
    case Ok(res) =>
      match res.forces
      case None => Ok(res)
      case Some(f) =>
        var parsed := cclib.ccread([JoinPath(directory, "xtb.out")]);
        ScaleBlockNegated(Last(parsed.value.grads.value), units.hartree / units.bohr);
        Ok(res.(forces := Some(ScaleBlock(f, -1.0))))
  }

  /** A constructed `xTB` calculator: its template, profile, directory and keywords. */
  datatype Calc = Calc(template: Template, profile: Profile, directory: string, parameters: Dict<PyValue>)

  const DefaultProfile: Profile := Profile(["xtb"])

  /** Python's `a or b` on optional profiles: a profile object is always truthy (it
      defines neither `__bool__` nor `__len__`) and `None` never is. */
  function PyOr(a: Option<Profile>, b: Option<Profile>): (r: Option<Profile>)
    ensures a.Some? ==> r == a
    ensures a.None? ==> r == b
  {
    if a.Some? then a else b
  }

  /** `xTB(profile=..., directory=..., **kwargs)` as written: `xTBProfile(["xtb"]) or
      profile` always picks the default, so the command is always `xtb xtb.inp`. */
  function NewXtb(profile: Option<Profile>, directory: string, kwargs: Dict<PyValue>): (c: Calc)
    ensures c.profile == DefaultProfile
    ensures c.template == NewTemplate() && c.directory == directory && c.parameters == kwargs
    ensures Execute(c.template, directory, c.profile).cmd == ["xtb", "xtb.inp"]
  {
    Calc(NewTemplate(), PyOr(Some(DefaultProfile), profile).value, directory, kwargs)
  }

  /** A caller's profile is dropped: asking for `xtb --tblite` still runs plain `xtb`. */
  lemma SuppliedProfileIgnored(directory: string, kwargs: Dict<PyValue>)
    ensures var c := NewXtb(Some(Profile(["xtb", "--tblite"])), directory, kwargs);
            c.profile.argv == ["xtb"] && c.profile != Profile(["xtb", "--tblite"])
    ensures NewXtbIntended(Some(Profile(["xtb", "--tblite"])), directory, kwargs).profile.argv == ["xtb", "--tblite"]
  {
  }

  /** `xTB(...)` with the default used only when no profile is given
      (`profile or xTBProfile(["xtb"])`). */
  function NewXtbIntended(profile: Option<Profile>, directory: string, kwargs: Dict<PyValue>): (c: Calc)
    ensures profile.Some? ==> c.profile == profile.value
    ensures profile.None? ==> c.profile == DefaultProfile
    ensures c.template == NewTemplate() && c.directory == directory && c.parameters == kwargs
    ensures Execute(c.template, directory, c.profile).cmd == c.profile.argv + ["xtb.inp"]
  {
    Calc(NewTemplate(), PyOr(profile, Some(DefaultProfile)).value, directory, kwargs)
  }
}
