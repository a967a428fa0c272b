/**
 The manifest kept in Git, as an abstract tree, and the two things the YAML editor does to it:
 read the version at a path and replace (or create) the version at a path.
 A null node is a scalar with empty text.
 */
module YamlTree {
  import opened Wrappers

  datatype Yaml =
    | Scalar(text: string)
    | Mapping(fields: map<string, Yaml>)
    | Sequence(items: seq<Yaml>)

  type Path = seq<string>

  // ----- path segments -----

  predicate IsDigit(c: char) { '0' <= c <= '9' }

  predicate IsIndex(part: string) {
    part != "" && forall i | 0 <= i < |part| :: IsDigit(part[i])
  }

  function IndexOf(part: string): nat
    requires forall i | 0 <= i < |part| :: IsDigit(part[i])
  {
    if part == "" then 0
    else assert IsDigit(part[|part| - 1]); 10 * IndexOf(part[..|part| - 1]) + (part[|part| - 1] as int - '0' as int)
  }

  function Digit(d: nat): char
    requires d < 10
  {
    ('0' as int + d) as char
  }

  /** A number as it is written. */
  function Decimal(n: nat): string {
    if n < 10 then [Digit(n)] else Decimal(n / 10) + [Digit(n % 10)]
  }

  /** A number written as a segment is an index, and the one it says: "0" is the first item. */
  lemma {:induction false} DecimalIsIndex(n: nat)
    ensures IsIndex(Decimal(n)) && IndexOf(Decimal(n)) == n
  {
    var text := Decimal(n);
    if n < 10 {
      assert text[..0] == "";
    } else {
      DecimalIsIndex(n / 10);
      assert text[..|text| - 1] == Decimal(n / 10);
      assert forall i | 0 <= i < |text| - 1 :: text[i] == Decimal(n / 10)[i];
    }
  }

  // ----- reading -----

  /** The node at a path, if there is one. */
  function Lookup(t: Yaml, path: Path): Option<Yaml>
    decreases path
  {
    if path == [] then Some(t)
    else if IsIndex(path[0]) then
      if t.Sequence? && IndexOf(path[0]) < |t.items| then Lookup(t.items[IndexOf(path[0])], path[1..])
      else None
    else if t.Mapping? && path[0] in t.fields then Lookup(t.fields[path[0]], path[1..])
    else None
  }

  /** The version text at a path; a missing node, an empty text and a non-scalar are errors. */
  function GetVersion(t: Yaml, path: Path): Result<string> {
    match Lookup(t, path)
    case Some(Scalar(text)) => if text == "" then Err else Ok(text)
    case _ => Err
  }

  predicate IsHelmRelease(t: Yaml) {
    Lookup(t, ["kind"]) == Some(Scalar("HelmRelease"))
  }

  // ----- writing -----

  /** A new subtree holding `text` at `path`; sequences are not created on the way. */
  function Create(path: Path, text: string): Result<Yaml> {
    if path == [] then Ok(Scalar(text))
    else if IsIndex(path[0]) then Err
    else match Create(path[1..], text)
      case Ok(sub) => Ok(Mapping(map[path[0] := sub]))
      case Err => Err
  }

  /** Set the version text at a path, creating missing mapping keys. */
  function UpdateVersion(t: Yaml, path: Path, text: string): Result<Yaml>
    decreases path
  {
    if path == [] then
      if t.Scalar? then Ok(Scalar(text)) else Err
    else if IsIndex(path[0]) then
      if t.Sequence? && IndexOf(path[0]) < |t.items| then
        match UpdateVersion(t.items[IndexOf(path[0])], path[1..], text)
        case Ok(sub) => Ok(Sequence(t.items[IndexOf(path[0]) := sub]))
        case Err => Err
      else Err
    else if t.Mapping? then
      match (if path[0] in t.fields then UpdateVersion(t.fields[path[0]], path[1..], text)
             else Create(path[1..], text))
      case Ok(sub) => Ok(Mapping(t.fields[path[0] := sub]))
      case Err => Err
    else Err
  }

  // ----- what the editor promises -----

  lemma {:induction false} CreateThenLookup(path: Path, text: string)
    requires Create(path, text).Ok?
    ensures Lookup(Create(path, text).value, path) == Some(Scalar(text))
  {
    if path != [] { CreateThenLookup(path[1..], text); }
  }

  /** The text written is the text found, and so the version read back is the version written. */
  lemma {:induction false} UpdateThenLookup(t: Yaml, path: Path, text: string)
    requires UpdateVersion(t, path, text).Ok?
    ensures Lookup(UpdateVersion(t, path, text).value, path) == Some(Scalar(text))
    ensures text != "" ==> GetVersion(UpdateVersion(t, path, text).value, path) == Ok(text)
    decreases path
  {
    if path == [] {
    } else if IsIndex(path[0]) {
      UpdateThenLookup(t.items[IndexOf(path[0])], path[1..], text);
    } else if path[0] in t.fields {
      UpdateThenLookup(t.fields[path[0]], path[1..], text);
    } else {
      CreateThenLookup(path[1..], text);
    }
  }

  /** Where a version can be read, it can be replaced: the preview's read is the commit's licence. */
  lemma {:induction false} ReadableIsWritable(t: Yaml, path: Path, text: string)
    requires Lookup(t, path).Some? && Lookup(t, path).value.Scalar?
    ensures UpdateVersion(t, path, text).Ok?
    decreases path
  {
    if path == [] {
    } else if IsIndex(path[0]) {
      ReadableIsWritable(t.items[IndexOf(path[0])], path[1..], text);
    } else {
      ReadableIsWritable(t.fields[path[0]], path[1..], text);
    }
  }

  lemma {:induction false} CreateOkForAny(path: Path, first: string, second: string)
    requires Create(path, first).Ok?
    ensures Create(path, second).Ok?
  {
    if path != [] { CreateOkForAny(path[1..], first, second); }
  }

  lemma {:induction false} CreateThenUpdate(path: Path, first: string, second: string)
    requires Create(path, first).Ok?
    ensures UpdateVersion(Create(path, first).value, path, second) == Create(path, second)
  {
    if path != [] {
      CreateThenUpdate(path[1..], first, second);
      CreateOkForAny(path[1..], first, second);
      var sub := Create(path[1..], first).value;
      assert map[path[0] := sub][path[0] := Create(path[1..], second).value]
          == map[path[0] := Create(path[1..], second).value];
    }
  }

  /** The last write wins: an edit leaves nothing of an earlier edit of the same path. */
  lemma {:induction false} LastUpdateWins(t: Yaml, path: Path, first: string, second: string)
    requires UpdateVersion(t, path, first).Ok?
    ensures UpdateVersion(UpdateVersion(t, path, first).value, path, second) == UpdateVersion(t, path, second)
    ensures UpdateVersion(t, path, second).Ok?
    decreases path
  {
    if path == [] {
    } else if IsIndex(path[0]) {
      var i := IndexOf(path[0]);
      LastUpdateWins(t.items[i], path[1..], first, second);
      var a := UpdateVersion(t.items[i], path[1..], first).value;
      var b := UpdateVersion(t.items[i], path[1..], second).value;
      assert t.items[i := a][i := b] == t.items[i := b];
    } else if path[0] in t.fields {
      LastUpdateWins(t.fields[path[0]], path[1..], first, second);
      var a := UpdateVersion(t.fields[path[0]], path[1..], first).value;
      var b := UpdateVersion(t.fields[path[0]], path[1..], second).value;
      assert t.fields[path[0] := a][path[0] := b] == t.fields[path[0] := b];
    } else {
      CreateThenUpdate(path[1..], first, second);
      CreateOkForAny(path[1..], first, second);
      var a := Create(path[1..], first).value;
      var b := Create(path[1..], second).value;
      assert t.fields[path[0] := a][path[0] := b] == t.fields[path[0] := b];
    }
  }

  /** Writing a text leaves the tree as it was exactly when that text is already there. */
  lemma {:induction false} UpdateIsIdentity(t: Yaml, path: Path, text: string)
    ensures UpdateVersion(t, path, text) == Ok(t) <==> Lookup(t, path) == Some(Scalar(text))
    decreases path
  {
    if path == [] {
    } else if IsIndex(path[0]) {
      if t.Sequence? && IndexOf(path[0]) < |t.items| {
        var i := IndexOf(path[0]);
        UpdateIsIdentity(t.items[i], path[1..], text);
        match UpdateVersion(t.items[i], path[1..], text)
        case Ok(sub) =>
          assert t.items[i := sub][i] == sub;
          assert sub == t.items[i] ==> t.items[i := sub] == t.items;
        case Err =>
      }
    } else if t.Mapping? {
      if path[0] in t.fields {
        UpdateIsIdentity(t.fields[path[0]], path[1..], text);
        match UpdateVersion(t.fields[path[0]], path[1..], text)
        case Ok(sub) =>
          assert t.fields[path[0] := sub][path[0]] == sub;
          assert sub == t.fields[path[0]] ==> t.fields[path[0] := sub] == t.fields;
        case Err =>
      } else {
        match Create(path[1..], text)
        case Ok(sub) => assert path[0] in t.fields[path[0] := sub];
        case Err =>
      }
    }
  }

  /** Upgrade then revert gives the original tree back exactly when the reverted text was the original one. */
  lemma RevertRestores(t: Yaml, path: Path, next: string, prev: string)
    requires UpdateVersion(t, path, next).Ok?
    ensures UpdateVersion(UpdateVersion(t, path, next).value, path, prev) == Ok(t)
       <==> Lookup(t, path) == Some(Scalar(prev))
  {
    LastUpdateWins(t, path, next, prev);
    UpdateIsIdentity(t, path, prev);
  }

  /** An edit is visible nowhere else: a path that parts from the edited one finds what it found before.
      Sequence positions written with different digits of the same number are the same place, so the
      paths must part at a mapping key or at two different positions. */
  lemma {:induction false} UpdateFrame(t: Yaml, path: Path, text: string, other: Path)
    requires UpdateVersion(t, path, text).Ok? && DivergeByPlace(path, other)
    ensures Lookup(UpdateVersion(t, path, text).value, other) == Lookup(t, other)
    decreases path
  {
    if IsIndex(path[0]) {
      if IsIndex(other[0]) && IndexOf(path[0]) == IndexOf(other[0]) {
        UpdateFrame(t.items[IndexOf(path[0])], path[1..], text, other[1..]);
      }
    } else if path[0] == other[0] {
      if path[0] in t.fields {
        UpdateFrame(t.fields[path[0]], path[1..], text, other[1..]);
      } else {
        CreateFrameByPlace(path[1..], text, other[1..]);
      }
    }
  }

  predicate SamePlace(a: string, b: string) {
    if IsIndex(a) && IsIndex(b) then IndexOf(a) == IndexOf(b) else a == b
  }

  predicate DivergeByPlace(p: Path, q: Path) {
    p != [] && q != [] && (!SamePlace(p[0], q[0]) || DivergeByPlace(p[1..], q[1..]))
  }

  lemma {:induction false} CreateFrameByPlace(path: Path, text: string, other: Path)
    requires Create(path, text).Ok? && DivergeByPlace(path, other)
    ensures Lookup(Create(path, text).value, other) == None
  {
    if SamePlace(path[0], other[0]) { CreateFrameByPlace(path[1..], text, other[1..]); }
  }
}
