# xtb_ase adapter, modelled in Dafny

xtb_ase lets ASE drive the `xtb` tight-binding program. It writes xtb's `$section … $end`
control file and a geometry file. It runs `xtb` as a subprocess, then reads the output back
through cclib into ASE's result dictionary. This project models the deterministic parts of
that adapter as pure functions and proves what they promise:

- `InputText` (input_text.dfy) holds the control-file syntax both writers share, at the line
  level. Indentation is stripped and whitespace-only lines are dropped. A rendered file is a
  `seq<string>` with, per section in iteration order, `$<section>`, one line per entry, and
  `$end`. `ParseInput` reads such a file back. It is the reference every writer is checked
  against.
- `InternalIo` (internal_io.dfy) models `src/xtb_ase/_io.py`. `write_xtb_inputs` renders scalars
  and strings as `key=value` and non-string iterables as `key: value`. `read_xtb_results` builds
  the file list for cclib, the energy, forces, optional final structure and attributes, and the
  sorted key order. It also models every exception the function raises, in the order its lines
  raise them.
- `Io` (io.dfy) models `src/xtb_ase/io.py`: `write_xtb` (every entry `key: value`; `POSCAR` or
  `coord.xyz`) and `read_xtb` (`RuntimeError` when cclib returns nothing).
- `Calculator` (calculator.dfy) models `src/xtb_ase/calculator.py`: the command line
  `xTBProfile.run` builds, the fixed `xtb.inp`/`xtb.out` names, the keyword defaults of
  `write_input`, `read_results`, and the profile chosen by `xTB.__init__`.
- `ReadPaths` (read_paths.dfy) puts the two result readers side by side.
- `Base` and `Dicts` (base.dfy, dicts.dfy) hold shared vocabulary. `Dicts` models Python's
  insertion-ordered `dict` as an association list with distinct keys, with `get`, `d[k] = v`
  and `update`.

Foreign code is passed in as function-valued fields and never interpreted: cclib's `ccread`,
monty's `jsanitize`, ASE's `read`, and `Path.exists`/`Path.is_file` (datatypes `Cclib` and
`Disk`). ASE's `Hartree` and `Bohr` are a `Units` record of positive reals. A value in the
option mapping carries the text Jinja2 prints for it (`shown`, Python's `str`) and its
classification by the template's `is iterable and is not string` test.

Behaviour of the code that the model keeps as written:

- `write_xtb` picks the geometry file with `atoms.pbc.any()` (src/xtb_ase/io.py:48), so a
  structure periodic along any one axis gets `POSCAR`.
- The command is `argv + [inputfile]`, with no `--input` flag and no geometry argument.
- `xTBProfile.run` opens its `outputfile` in the calling process, while `cwd=directory` only
  applies to the child. `execute` passes the bare `xtb.out`, so output lands in the caller's
  working directory; `read_results` reads `directory/xtb.out` (see Findings).
- The profile passed to `xTB` is ignored (see Findings).
- `read_xtb_results` guards the gradient read with `hasattr(cclib_obj, "grads")`
  (src/xtb_ase/_io.py:107), so forces were meant to be optional, yet line 116 raises when
  cclib found no gradients (see Findings). Only `io.read_xtb` turns an empty parse into an
  explicit error. `_io.read_xtb_results` fails with `AttributeError` on the `None` parse.
- `xTBTemplate.read_results` reads `cclib_obj.grads` without a guard. A parse without gradients
  therefore raises `AttributeError` there; only an empty gradient array gives `forces = None`.
- The `if cclib_obj.scfenergies` and `if cclib_obj.grads` tests (src/xtb_ase/calculator.py:72-74)
  are modelled as "nonempty"; numpy's own truth test differs (see "## Left out").

## Model

| member | source | states |
|---|---|---|
| InputText.RenderSize | src/xtb_ase/_io.py:49-65 | a rendered file has two lines per section plus one per entry, so it is empty exactly when the option mapping is |
| InputText.RenderRoundTrip | src/xtb_ase/_io.py:49-65 | reading a rendered file back gives every section name, key and value text in iteration order; the by-kind writer also keeps each value's kind, the colon writer turns every value into a sequence entry |
| InputText.RenderAppend | src/xtb_ase/_io.py:50-61 | rendering two option mappings one after the other gives the first file followed by the second, since sections are rendered independently in iteration order |
| InputText.SectionLinesShape | src/xtb_ase/_io.py:51-59 | one section's block is its `$<section>` header, one line per entry in the inner mapping's order, then `$end` |
| InputText.SectionLayout | src/xtb_ase/io.py:30-39 | the file up to section i is the rendering of sections 0..i-1, and the lines right after it are exactly section i's block |
| InputText.MarkerCounts | src/xtb_ase/io.py:31-38 | a rendered file has exactly one `$<section>` line and one `$end` line per section (for mappings with no key containing `=` or `:` or starting with `$`, and no section named `end`) |
| InternalIo.WriteXtbInputs | src/xtb_ase/_io.py:24-70 | the input file goes to the caller's input path and the structure to the caller's geometry path; the file has two lines per section plus one per entry |
| InternalIo.WriteXtbInputsRoundTrip | src/xtb_ase/_io.py:49-67 | the written input file reads back as exactly the option mapping: sections, entries, order, value text and scalar/iterable kind |
| InternalIo.WriteXtbInputsEntryForm | src/xtb_ase/_io.py:53-57 | a scalar or string renders as `key=value`, a non-string iterable as `key: value`, and the line reads back as that key and value |
| InternalIo.WriteXtbInputsMarkers | src/xtb_ase/_io.py:50-61 | the written file has exactly one header line and one `$end` line per section (for mappings with no key containing `=` or `:` or starting with `$`, and no section named `end`) |
| InternalIo.WriteXtbInputsLayout | src/xtb_ase/_io.py:50-61 | the written file up to section i is the rendering of the earlier sections, followed by exactly section i's block (header, its entries in the inner mapping's order, `$end`) |
| InternalIo.ParseFileList | src/xtb_ase/_io.py:96-98 | the list given to cclib starts with the output file and has the gradient file second exactly when it exists, so its length is 1 or 2 |
| InternalIo.ReadXtbResults | src/xtb_ase/_io.py:96-117 | each failure raises the exception its line raises (None gradient path, empty parse, empty energies, empty gradients, None opt path, missing gradients); on success energy is the last SCF energy unscaled, forces are the negated last gradient block times Hartree/Bohr, attributes are the sanitised cclib attributes, and the final structure is present exactly when the opt file is a regular file |
| InternalIo.ResultKeys | src/xtb_ase/_io.py:103-119 | the returned keys are in ascending string order; `energy` and `attributes` are always present, `final_atoms` and `forces` exactly when set |
| InternalIo.ForcesOpposeGradient | src/xtb_ase/_io.py:108 | on every atom and axis the force has the opposite sign to the gradient and vanishes exactly where it does |
| InternalIo.MissingGradientsFail | src/xtb_ase/_io.py:107-117 | a parse with energies but no gradients raises `UnboundLocalError` at the `forces` check, while the intended reader returns a result without forces |
| InternalIo.ReadXtbResultsIntended | src/xtb_ase/_io.py:107-117 | without gradients the result has no `forces` and is not an error; it agrees with the as-written reader whenever forces are present |
| Io.GeometryFile | src/xtb_ase/io.py:48 | the geometry file is always `POSCAR` or `coord.xyz` |
| Io.GeometryFileChoice | src/xtb_ase/io.py:48 | `coord.xyz` exactly when no axis is periodic; a structure periodic along one axis only gets `POSCAR` |
| Io.WriteXtb | src/xtb_ase/io.py:20-49 | the input file goes to `directory/input_file` and the structure to `directory/POSCAR` or `directory/coord.xyz`; the file has two lines per section plus one per entry |
| Io.WriteXtbEntryForm | src/xtb_ase/io.py:33-34 | every entry renders as `key: value` whatever its kind; there is no `=` form |
| Io.WriteXtbRoundTrip | src/xtb_ase/io.py:30-45 | the written input reads back as the mapping's sections, keys and value texts in order, each value as a sequence entry |
| Io.WriteXtbMarkers | src/xtb_ase/io.py:30-39 | the written file has exactly one header line and one `$end` line per section (for mappings with no key containing `=` or `:` or starting with `$`, and no section named `end`) |
| Io.ColonStyleIsColonBlock | src/xtb_ase/io.py:30-39 | the shared renderer in colon style prints, for each section, its header, one `key: value` line per entry in order, and `$end` |
| Io.WriteXtbLayout | src/xtb_ase/io.py:30-39 | the written file up to section i is the rendering of the earlier sections, followed by exactly section i's header, its `key: value` lines in order, and `$end` |
| Io.ReadXtb | src/xtb_ase/io.py:52-62 | `RuntimeError("Could not read <file>")` exactly when cclib returns nothing, otherwise cclib's result unchanged |
| Calculator.Run | src/xtb_ase/calculator.py:31-34 | the command is the profile's argv followed by the input file: one token longer, argv as its prefix, the input file last; the child runs in the given directory, and the output path is passed through unchanged, to be opened by the caller |
| Calculator.NewTemplate | src/xtb_ase/calculator.py:42-48 | the template is named `xtb`, implements `energy`, `forces` and `attributes`, and uses `xtb.inp` and `xtb.out` |
| Calculator.ExecuteUsesFixedFiles | src/xtb_ase/calculator.py:50-51 | execute runs `argv + ["xtb.inp"]` in `directory`, with stdout opened at the bare path `xtb.out` |
| Calculator.OutputWrittenWhereNotRead | src/xtb_ase/calculator.py:33-34 | as written, stdout goes to `xtb.out` in the caller's working directory, which differs from the `directory/xtb.out` that `read_results` reads whenever `directory` is not the caller's working directory (with the default `.` they coincide); the corrected execute opens stdout at `directory/xtb.out` and runs the same command |
| Calculator.ExecuteIntended | src/xtb_ase/calculator.py:50-51 | the corrected execute runs the same command in `directory` and opens stdout at `directory/xtb.out` |
| Dicts.Put | src/xtb_ase/calculator.py:62 | `d[k] = v`: `k` maps to `v` afterwards, other keys keep their values, an existing key keeps its position and a new key is appended at the end |
| Dicts.UpdateKeys | src/xtb_ase/calculator.py:62 | the keys after `m.update(u)` are those of `m` together with those of `u` |
| Dicts.UpdateGet | src/xtb_ase/calculator.py:62 | after `m.update(u)` a key of `u` has `u`'s value and any other key keeps `m`'s |
| Dicts.UpdatePrefix | src/xtb_ase/calculator.py:62 | `m.update(u)` keeps each of `m`'s keys at its position |
| Dicts.UpdateSpec | src/xtb_ase/calculator.py:62 | after `m.update(u)` the keys are the union, keys of `u` carry `u`'s values, the other keys keep `m`'s values, and `m`'s keys keep their positions at the front |
| Calculator.WriteInputKeywords | src/xtb_ase/calculator.py:53-62 | every caller keyword keeps the caller's value, every default the caller omits survives, the key set is defaults plus caller keys, and the four defaults come first |
| Calculator.DefaultKeywordsSurvive | src/xtb_ase/calculator.py:56-62 | `charge=0`, `mult=1`, `orcasimpleinput` and `orcablocks` each survive exactly when the caller does not supply that key |
| Calculator.ReadResults | src/xtb_ase/calculator.py:66-81 | `RuntimeError` when cclib reads nothing from `directory/xtb.out` and `AttributeError` when it found no gradients; otherwise energy is the last SCF energy times Hartree (None when there are no energies), forces are the last gradient block times Hartree/Bohr without negation (None when the array is empty), and attributes are sanitised |
| Calculator.CalcResultKeys | src/xtb_ase/calculator.py:77-81 | the result always has exactly the keys `energy`, `forces`, `attributes`, the template's implemented properties |
| Calculator.ReadResultsNegated | src/xtb_ase/calculator.py:73-75 | the corrected reader's forces are the negated last gradient block times Hartree/Bohr; it fails exactly when `read_results` fails and agrees with it on energy and attributes |
| Calculator.NewXtb | src/xtb_ase/calculator.py:89-106 | the constructed calculator always uses the `["xtb"]` profile, so it always runs `xtb xtb.inp`; template, directory and keywords are the caller's |
| Calculator.SuppliedProfileIgnored | src/xtb_ase/calculator.py:103 | asking for `["xtb", "--tblite"]` still yields argv `["xtb"]`, while the intended constructor keeps the caller's argv |
| Calculator.NewXtbIntended | src/xtb_ase/calculator.py:103 | a supplied profile takes effect, and the default `["xtb"]` applies only when none is given |
| ReadPaths.ReadersDisagreeOnUnitsAndSign | src/xtb_ase/calculator.py:72-75 | on the same parse the template's energy is `_io`'s times Hartree and its forces are `_io`'s negated, while the corrected reader matches `_io`'s forces |

## Left out

- Subprocess execution is out of the model: `check_call`, opening the output file, and exit-status handling (src/xtb_ase/calculator.py:33-34). `Run` returns a description of the invocation instead.
- The `which("xtb")` check in `xTB.__init__` is out because it depends on the host `PATH`. So is `Path(directory).expanduser()`, because it depends on the home directory.
- Foreign libraries are parameters and are not modelled: ASE's `read`/`write` of structure files, cclib's `ccread`, and monty's `jsanitize`. `io.read_xtb` gives `ccread` a single path; the model passes it as a one-element list.
- Python's `str` of option values is not modelled. Each value carries its printed text. Values whose text contains a newline, and keys or values with leading or trailing whitespace, are outside the line-level view.
- Only line-level text is modelled, not Jinja2's exact whitespace: leading and trailing newlines, indentation and blank lines.
- Floating point is out: Hartree and Bohr are arbitrary positive reals, and arithmetic is exact.
- Calculator.ReadResults: numpy truthiness is read as "nonempty", which is weaker than the code. `cclib_obj.grads` has shape (steps, atoms, 3), so every nonempty gradient array makes `if cclib_obj.grads` (src/xtb_ase/calculator.py:74) raise `ValueError`. Likewise `if cclib_obj.scfenergies` (line 72) raises for two or more energies and is false for a single energy of 0.0. The modelled success path exists only under the "nonempty" reading.
- Calculator.OutputWrittenWhereNotRead: its inequality is between unnormalised path strings (`JoinPath` is concatenation), so it also holds for `directory = "."`, where pathlib names the same file; the lemma does not model which directory is the caller's working directory.
- Mappings that render but do not read back are outside the round-trip lemmas: a key containing `=` or `:`, a key starting with `$`, or a section named `end`. The line format is ambiguous for them (`ValidKey`, `ValidSection`), so `RenderRoundTrip` and the writers' round trips require `WellFormed`, and so do the marker counts `InputText.MarkerCounts`, `InternalIo.WriteXtbInputsMarkers` and `Io.WriteXtbMarkers`: an entry line such as `$x=1` would count as a second header.
- A missing `scfenergies` attribute is out. cclib records without it would raise `AttributeError`; the model's parse record always has the sequence.
- `grad_file` and `xtb_opt_file` are modelled as `Path` objects or `None`. A plain `str` would fail at `.exists()`.
- `JoinPath` is plain concatenation. `pathlib` normalisation (`.`, absolute names) is not modelled.
- The call from `write_input` to `write_xtb` (src/xtb_ase/calculator.py:64) is out. Its arguments do not match the signature in src/xtb_ase/io.py:20-25, so each function is modelled on its own. The `properties` argument of `write_input` is unused by the code.
- The method and flag policy exercised by tests/test_calc.py (`--gfnff`, `--tblite`, `--spinpol`, `ValueError` on a bad method) is out. Those tests import `XTB`/`XTBProfile`, which src/xtb_ase/calculator.py does not define.
- src/template/examples/sample.py and src/xtb_ase/__init__.py are not part of this model. They hold project scaffolding and a version lookup.
- WriteInputKeywords: states that the defaults keep their leading positions, but not the order in which new caller keys follow them.
- Dicts.UpdateSpec: states the prefix order of the original keys only, not the order in which new keys are appended.

## Findings

| source | as written | input that shows it | evidently intended | confidence | as-written member | corrected member |
|---|---|---|---|---|---|---|
| src/xtb_ase/calculator.py:103 | `xTBProfile(["xtb"]) or profile` always yields the default, because a profile object is always truthy | `xTB(profile=xTBProfile(["xtb", "--tblite"]))` still runs `xtb xtb.inp` | `profile or xTBProfile(["xtb"])`: the caller's profile wins and the default applies only to `None` | not executed; high | Calculator.NewXtb, Calculator.SuppliedProfileIgnored | Calculator.NewXtbIntended |
| src/xtb_ase/_io.py:116 | `forces` is read even when the `hasattr(cclib_obj, "grads")` branch did not assign it | a parse with energies and no `grads` raises `UnboundLocalError` | the result simply has no `forces` key | not executed; high | InternalIo.ReadXtbResults, InternalIo.MissingGradientsFail | InternalIo.ReadXtbResultsIntended |
| src/xtb_ase/calculator.py:73-75 | forces are the last gradient block scaled by Hartree/Bohr, with no change of sign; literally, the numpy truth test at line 74 raises `ValueError` on any nonempty gradient array before the product is computed | with line 74's test read as "nonempty", a parse whose last gradient block has a nonzero component gives a force pointing along the gradient; read literally, the same parse raises `ValueError` | forces are the negated gradient, as src/xtb_ase/_io.py:108 computes them | not executed; medium | Calculator.ReadResults, ReadPaths.ReadersDisagreeOnUnitsAndSign | Calculator.ReadResultsNegated |
| src/xtb_ase/calculator.py:51 | `execute` passes the bare `xtb.out`, which `run` opens in the calling process (line 33), not in `cwd=directory` | `xTB(directory="calc")` writes xtb's output to `./xtb.out` while `read_results` reads `calc/xtb.out`; with the default `directory="."` the two coincide | `execute` passes `directory / self.output_file`, as `write_input` does for the input file | not executed; medium | Calculator.ExecuteUsesFixedFiles, Calculator.OutputWrittenWhereNotRead | Calculator.ExecuteIntended |
