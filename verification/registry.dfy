/**
 The table of running scripts (`activeProcesses` in main.js): a JavaScript `Map`
 from script name to child process. A JavaScript `Map` remembers the order in
 which its keys were first inserted, and both `Array.from(map.keys())` and
 `map.forEach` follow that order, so the table is modelled as the list of its
 entries in insertion order. `View` is the abstract name-to-pid map it denotes.
 */
module Registry {
  import opened Opt

  /** An abstract process id standing for a `ChildProcess` object. */
  type Pid = nat

  datatype Entry = Entry(name: string, pid: Pid)

  type Table = seq<Entry>

  /** The name-to-pid map the table denotes (an earlier entry shadows a later one). */
  function View(t: Table): map<string, Pid>
  {
    if t == [] then map[] else View(t[1..])[t[0].name := t[0].pid]
  }

  /** A JavaScript `Map` holds each key at most once. */
  predicate Distinct(t: Table)
  {
    t == [] || (t[0].name !in View(t[1..]) && Distinct(t[1..]))
  }

  /** `map.get(name)`. */
  function Get(t: Table, name: string): (r: Option<Pid>)
    ensures r.Some? <==> name in View(t)
    ensures r.Some? ==> View(t)[name] == r.value
  {
    if t == [] then None
    else if t[0].name == name then Some(t[0].pid)
    else Get(t[1..], name)
  }

  /** `map.has(name)`. */
  function Has(t: Table, name: string): (b: bool)
    ensures b <==> name in View(t)
  {
    Get(t, name).Some?
  }

  /** `map.set(name, pid)`: an existing key keeps its position, a new key goes last. */
  function Set(t: Table, name: string, pid: Pid): (r: Table)
    ensures View(r) == View(t)[name := pid]
    ensures Distinct(t) ==> Distinct(r)
    ensures name !in View(t) ==> r == t + [Entry(name, pid)]
    ensures name in View(t) ==> |r| == |t|
  {
    if t == [] then [Entry(name, pid)]
    else if t[0].name == name then [Entry(name, pid)] + t[1..]
    else
      var rest := Set(t[1..], name, pid);
      assert ([t[0]] + rest)[1..] == rest;
      [t[0]] + rest
  }

  /** Where in the insertion order the entry for `name` sits. */
  function Position(t: Table, name: string): (i: nat)
    requires name in View(t)
    ensures i < |t| && t[i].name == name
  {
    if t[0].name == name then 0 else 1 + Position(t[1..], name)
  }

  /** `xs` without its element at index `i`, the others in their order. */
  function Omit<T>(xs: seq<T>, i: nat): seq<T>
    requires i < |xs|
  {
    xs[..i] + xs[i + 1..]
  }

  /** `map.delete(name)`: removes the entry for `name`, if any, keeping the order of the others. */
  function Delete(t: Table, name: string): (r: Table)
    ensures name !in View(t) ==> r == t
    ensures name in View(t) ==> r == Omit(t, Position(t, name))
    ensures Distinct(t) ==> Distinct(r) && View(r) == View(t) - {name}
    ensures name in View(t) ==> |r| == |t| - 1
  {
    if t == [] then []
    else if t[0].name == name then
      assert Omit(t, 0) == t[1..];
      t[1..]
    else
      var rest := Delete(t[1..], name);
      KeepFirst(t, name, rest);
      if name in View(t) then
        DeleteLater(t, name, rest);
        [t[0]] + rest
      else [t[0]] + rest
  }

  /** Deleting a name that is not first from a `Map` keeps the first entry's binding. */
  lemma KeepFirst(t: Table, name: string, rest: Table)
    requires t != [] && t[0].name != name
    requires Distinct(t[1..]) ==> Distinct(rest) && View(rest) == View(t[1..]) - {name}
    ensures ([t[0]] + rest)[1..] == rest
    ensures Distinct(t) ==> Distinct([t[0]] + rest) && View([t[0]] + rest) == View(t) - {name}
  {
    var r := [t[0]] + rest;
    assert r[1..] == rest;
    assert View(r) == View(rest)[t[0].name := t[0].pid];
  }

  /** Deleting a name that is not first keeps the first entry in front. */
  lemma DeleteLater(t: Table, name: string, rest: Table)
    requires t != [] && t[0].name != name && name in View(t)
    requires rest == Omit(t[1..], Position(t[1..], name))
    ensures [t[0]] + rest == Omit(t, Position(t, name))
  {
    var p := Position(t[1..], name);
    assert Position(t, name) == p + 1;
    OmitCons(t, p);
  }

  /** Dropping a later element keeps the head in front. */
  lemma OmitCons<T>(xs: seq<T>, i: nat)
    requires i + 1 < |xs|
    ensures Omit(xs, i + 1) == [xs[0]] + Omit(xs[1..], i)
  {
    assert xs[..i + 1] == [xs[0]] + xs[1..][..i];
    assert xs[i + 2..] == xs[1..][i + 1..];
  }

  /** The names `map.delete(name)` leaves, in the order the table keeps them. */
  lemma DeletedKeys(t: Table, name: string)
    ensures name in View(t) ==> Keys(Delete(t, name)) == Omit(Keys(t), Position(t, name))
  {
    if name in View(t) {
      KeysOmit(t, Position(t, name));
    }
  }

  /** The names of a table without one entry are its names without that one. */
  lemma KeysOmit(t: Table, i: nat)
    requires i < |t|
    ensures Keys(Omit(t, i)) == Omit(Keys(t), i)
  {
    var r := Omit(t, i);
    var ks := Keys(t);
    var rs := Keys(r);
    var os := ks[..i] + ks[i + 1..];
    forall k | 0 <= k < |rs| ensures rs[k] == os[k] {
      assert rs[k] == r[k].name;
      if k < i {
        assert r[k] == t[k] && os[k] == ks[k] == t[k].name;
      } else {
        assert r[k] == t[k + 1] && os[k] == ks[k + 1] == t[k + 1].name;
      }
    }
  }


  /** `Array.from(map.keys())`: exactly the names the table maps, in insertion order. */
  function Keys(t: Table): (ks: seq<string>)
    ensures |ks| == |t|
    ensures forall i :: 0 <= i < |t| ==> ks[i] == t[i].name
    ensures forall n :: n in ks <==> n in View(t)
  {
    if t == [] then [] else [t[0].name] + Keys(t[1..])
  }

  /** In a JavaScript `Map` no name is listed twice by `Keys`. */
  lemma {:induction false} KeysDistinct(t: Table)
    requires Distinct(t)
    ensures forall i, j :: 0 <= i < j < |t| ==> Keys(t)[i] != Keys(t)[j]
  {
    if t != [] {
      KeysDistinct(t[1..]);
      assert Keys(t) == [t[0].name] + Keys(t[1..]);
      forall i, j | 0 <= i < j < |t|
        ensures Keys(t)[i] != Keys(t)[j]
      {
        if i == 0 {
          assert Keys(t)[j] == Keys(t[1..])[j - 1];
          assert Keys(t)[j] in Keys(t[1..]);
        } else {
          assert Keys(t)[i] == Keys(t[1..])[i - 1];
          assert Keys(t)[j] == Keys(t[1..])[j - 1];
        }
      }
    }
  }

}
