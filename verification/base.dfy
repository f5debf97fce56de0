/**
 Shared vocabulary of the xtb_ase model: optional values, the Python exceptions the
 adapter can raise, ASE's unit constants, gradient blocks, the record cclib's parser
 returns, and the foreign collaborators (cclib, monty, ASE, the file system) that the
 adapter calls but that are not part of this model.
 */
module Base {

  /** A value that may be missing (Python's `None`). */
  datatype Option<+T> = None | Some(value: T)

  /** The exceptions the modelled code raises, named after their Python classes. */
  datatype PyError =
    | AttributeError(attribute: string)   // attribute looked up on an object that lacks it
    | IndexError(sequence: string)        // `[-1]` on an empty sequence
    | TypeError(reason: string)
    | UnboundLocalError(variable: string) // a local read before any assignment
    | RuntimeError(message: string)

  /** Either the value a Python call returns or the exception it raises. */
  datatype Result<+T> = Ok(value: T) | Err(error: PyError)

  /** Python's `s[-1]`, for a sequence known to be nonempty. */
  function Last<T>(s: seq<T>): T
    requires |s| > 0
  {
    s[|s| - 1]
  }

  /** Python's `<` on `str`: lexicographic comparison of code points. */
  predicate StrLess(a: string, b: string)
  {
    if |a| == 0 then |b| > 0
    else if |b| == 0 then false
    else if a[0] != b[0] then a[0] < b[0]
    else StrLess(a[1..], b[1..])
  }

  /** Every earlier string compares below every later one. */
  predicate StrictlyAscending(ks: seq<string>)
  {
    forall i, j :: 0 <= i < j < |ks| ==> StrLess(ks[i], ks[j])
  }

  type PositiveReal = r: real | r > 0.0 witness 1.0

  /** `ase.units.Hartree` (eV per Hartree) and `ase.units.Bohr` (Angstrom per Bohr). Only
      their positivity matters to the properties proved here. */
  datatype Units = Units(hartree: PositiveReal, bohr: PositiveReal)

  /** One Cartesian 3-vector. */
  datatype Vec3 = Vec3(x: real, y: real, z: real)

  /** One `(natoms, 3)` slice of cclib's `grads` array, or a forces array. */
  type Block = seq<Vec3>

  function ScaleVec(v: Vec3, c: real): Vec3
  {
    Vec3(c * v.x, c * v.y, c * v.z)
  }

  /** Element-wise `block * c` on a numpy array. */
  function ScaleBlock(b: Block, c: real): Block
  {
    seq(|b|, i requires 0 <= i < |b| => ScaleVec(b[i], c))
  }

  /** Scaling by `-c` is scaling by `c` and then negating. */
  lemma ScaleBlockNegated(b: Block, c: real)
    ensures ScaleBlock(b, -c) == ScaleBlock(ScaleBlock(b, c), -1.0)
  {
    var l, r := ScaleBlock(b, -c), ScaleBlock(ScaleBlock(b, c), -1.0);
    forall i | 0 <= i < |b| ensures l[i] == r[i] {
      assert -1.0 * (c * b[i].x) == -c * b[i].x;
      assert -1.0 * (c * b[i].y) == -c * b[i].y;
      assert -1.0 * (c * b[i].z) == -c * b[i].z;
    }
  }

  /** The parts of a cclib `ccData` object the adapter touches: the SCF energies, the
      gradient blocks when the parser found any (`hasattr(obj, "grads")`), and the
      attribute dictionary returned by `getattributes()`, kept uninterpreted as `A`. */
  datatype Parsed<A> = Parsed(scfenergies: seq<real>, grads: Option<seq<Block>>, attributes: A)

  /** cclib's `ccread`, which parses one log file or a list of related files and returns
      `None` when it cannot make sense of them, and monty's `jsanitize`. */
  datatype Cclib<!A> = Cclib(ccread: seq<string> -> Option<Parsed<A>>, jsanitize: A -> A)

  /** The file system as `pathlib` sees it, and ASE's `read` of a structure file into an
      uninterpreted structure `T`. */
  datatype Disk<T> = Disk(pathExists: string -> bool, isFile: string -> bool, readAtoms: string -> T)

  /** The values a caller can pass as calculator keywords. */
  datatype PyValue = PyInt(i: int) | PyStr(s: string) | PyObject(repr: string)

  /** `Path(directory) / name`, written as plain concatenation. */
  function JoinPath(directory: string, name: string): string
  {
    directory + "/" + name
  }
}
