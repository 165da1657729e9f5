/** The per-trace function dictionary: what it means (`Dict`), and the hash
    table that implements it for any hasher (`Dictionary`). */
module Dictionaries {
  import opened Numerals
  import opened FunctionKeys
  import opened CallSites

  /** An entry staged for the next batch. */
  datatype DictEntry = DictEntry(fnId: nat, fqn: string, file: string, line: UInt32, kind: FunctionKind)

  function EntryFor(fnId: nat, cat: Categorised): DictEntry {
    DictEntry(fnId, cat.fqn, cat.file, cat.line, cat.kind)
  }

  /** Interned keys in order of first sight (key `i` has id `i + 1`) and the
      entries staged since the last flush. */
  datatype Dict = Dict(keys: seq<FunctionKey>, staged: seq<DictEntry>)

  const EMPTY_DICT := Dict([], [])

  /** The id of `k`, or 0 when it was never seen. */
  function IdOf(keys: seq<FunctionKey>, k: FunctionKey): (id: nat)
    ensures id <= |keys|
    ensures id == 0 <==> k !in keys
    ensures id > 0 ==> keys[id - 1] == k && k !in keys[..id - 1]
  {
    if keys == [] then 0
    else if keys[0] == k then 1
    else
      var rest := IdOf(keys[1..], k);
      if rest == 0 then 0
      else
        assert keys[..rest] == [keys[0]] + keys[1..][..rest - 1];
        rest + 1
  }

  predicate Distinct(keys: seq<FunctionKey>) {
    forall i, j :: 0 <= i < j < |keys| ==> keys[i] != keys[j]
  }

  /** Lookup-or-insert; `build` is called on a miss only. */
  function InternSpec(d: Dict, key: FunctionKey, build: nat -> DictEntry): (r: (Dict, nat))
    ensures r.1 == IdOf(r.0.keys, key) > 0
    ensures Distinct(d.keys) ==> Distinct(r.0.keys)
    ensures d.keys <= r.0.keys
  {
    if key in d.keys then (d, IdOf(d.keys, key))
    else
      IdOfLast(d.keys, key);
      (Dict(d.keys + [key], d.staged + [build(|d.keys| + 1)]), |d.keys| + 1)
  }

  lemma InternCases(d: Dict, key: FunctionKey, build: nat -> DictEntry)
    ensures InternSpec(d, key, build) ==
      if key in d.keys then (d, IdOf(d.keys, key))
      else (Dict(d.keys + [key], d.staged + [build(|d.keys| + 1)]), |d.keys| + 1)
  {
  }

  lemma IdOfLast(keys: seq<FunctionKey>, key: FunctionKey)
    requires key !in keys
    ensures IdOf(keys + [key], key) == |keys| + 1
  {
  }

  /** With distinct keys, ids and keys correspond one to one. */
  lemma IdsBijective(keys: seq<FunctionKey>, a: FunctionKey, b: FunctionKey)
    requires Distinct(keys) && a in keys && b in keys
    ensures IdOf(keys, a) == IdOf(keys, b) <==> a == b
    ensures forall i :: 0 <= i < |keys| ==> IdOf(keys, keys[i]) == i + 1
  {
  }

  // --- The hash table ------------------------------------------------------

  datatype Slot = Slot(key: FunctionKey, id: nat)

  /** The slot a hash probe stops at when its predicate is `MatchesRef(_, r)`; 0 when it finds none. */
  function FindRef(chain: seq<Slot>, r: FunctionKeyRef): (id: nat)
    ensures id == 0 ==> forall i :: 0 <= i < |chain| && chain[i].id > 0 ==> !MatchesRef(chain[i].key, r)
    ensures id > 0 ==> exists i :: 0 <= i < |chain| && chain[i].id == id && MatchesRef(chain[i].key, r)
  {
    if chain == [] then 0
    else if chain[0].id > 0 && MatchesRef(chain[0].key, r) then chain[0].id
    else
      var id := FindRef(chain[1..], r);
      assert forall i :: 0 < i < |chain| ==> chain[i] == chain[1..][i - 1];
      id
  }

  /** The slot a hash probe stops at when it compares owning keys. */
  function FindKey(chain: seq<Slot>, k: FunctionKey): (id: nat)
    ensures id == 0 ==> forall i :: 0 <= i < |chain| && chain[i].id > 0 ==> chain[i].key != k
    ensures id > 0 ==> exists i :: 0 <= i < |chain| && chain[i].id == id && chain[i].key == k
  {
    if chain == [] then 0
    else if chain[0].id > 0 && chain[0].key == k then chain[0].id
    else
      var id := FindKey(chain[1..], k);
      assert forall i :: 0 < i < |chain| ==> chain[i] == chain[1..][i - 1];
      id
  }

  datatype ProbeOutcome = Hit | Miss

  type Buckets = map<nat, seq<Slot>>

  /** Key `i` is filed under its own hash with id `i + 1`. */
  predicate Stored(hasher: Hasher, buckets: Buckets, keys: seq<FunctionKey>, i: nat)
    requires i < |keys|
  {
    var h := hasher(Writes(keys[i]));
    h in buckets && Slot(keys[i], i + 1) in buckets[h]
  }

  /** A slot names a known key by its id, under the key's own hash. */
  predicate SlotOk(hasher: Hasher, keys: seq<FunctionKey>, h: nat, slot: Slot) {
    0 < slot.id <= |keys| && keys[slot.id - 1] == slot.key && hasher(Writes(slot.key)) == h
  }

  ghost predicate Sound(hasher: Hasher, buckets: Buckets, keys: seq<FunctionKey>) {
    && Distinct(keys)
    && (forall i :: 0 <= i < |keys| ==> Stored(hasher, buckets, keys, i))
    && (forall h, slot :: h in buckets && slot in buckets[h] ==> SlotOk(hasher, keys, h, slot))
  }

  function ChainOf(buckets: Buckets, h: nat): seq<Slot> { if h in buckets then buckets[h] else [] }

  function Filed(buckets: Buckets, h: nat, slot: Slot): Buckets { buckets[h := ChainOf(buckets, h) + [slot]] }

  /** Filing a key under a hash keeps the table sound exactly when the key is new
      and the hash its own. */
  lemma FiledSoundIff(hasher: Hasher, buckets: Buckets, keys: seq<FunctionKey>, h: nat, key: FunctionKey)
    requires Sound(hasher, buckets, keys)
    ensures Sound(hasher, Filed(buckets, h, Slot(key, |keys| + 1)), keys + [key]) <==>
      key !in keys && hasher(Writes(key)) == h
  {
    var (more, after) := (keys + [key], Filed(buckets, h, Slot(key, |keys| + 1)));
    if key in keys {
      var i :| 0 <= i < |keys| && keys[i] == key;
      assert more[i] == more[|keys|];
    } else if hasher(Writes(key)) != h {
      assert Slot(key, |more|) in after[h] && !SlotOk(hasher, more, h, Slot(key, |more|));
    } else {
      FiledSound(hasher, buckets, keys, h, key);
    }
  }

  lemma FiledSound(hasher: Hasher, buckets: Buckets, keys: seq<FunctionKey>, h: nat, key: FunctionKey)
    requires Sound(hasher, buckets, keys) && key !in keys && hasher(Writes(key)) == h
    ensures Sound(hasher, Filed(buckets, h, Slot(key, |keys| + 1)), keys + [key])
  {
    hide Writes;
    var (more, slot) := (keys + [key], Slot(key, |keys| + 1));
    var after := Filed(buckets, h, slot);
    forall i | 0 <= i < |more| ensures Stored(hasher, after, more, i) {
      if i < |keys| {
        assert Stored(hasher, buckets, keys, i);
      } else {
        assert after[h][|after[h]| - 1] == slot;
      }
    }
    forall g, s | g in after && s in after[g] ensures SlotOk(hasher, more, g, s) {
      if s != slot || g != h {
        assert g in buckets && s in buckets[g];
        assert SlotOk(hasher, keys, g, s);
      }
    }
  }

  /** Different keys meet in one bucket only where the hasher itself collides. */
  lemma SharedBucketIsCollision(hasher: Hasher, buckets: Buckets, keys: seq<FunctionKey>, h: nat, a: Slot, b: Slot)
    requires Sound(hasher, buckets, keys) && h in buckets && a in buckets[h] && b in buckets[h] && a.key != b.key
    ensures Writes(a.key) != Writes(b.key) && hasher(Writes(a.key)) == hasher(Writes(b.key))
  {
    assert SlotOk(hasher, keys, h, a) && SlotOk(hasher, keys, h, b);
    WritesInjective(a.key, b.key);
  }

  class Dictionary {
    const hasher: Hasher
    var buckets: Buckets
    var newEntries: seq<DictEntry>
    var nextFnId: nat
    ghost var keys: seq<FunctionKey>

    ghost predicate Valid()
      reads this
    {
      nextFnId == |keys| + 1 && Sound(hasher, buckets, keys)
    }

    ghost function View(): Dict
      reads this
    {
      Dict(keys, newEntries)
    }

    constructor (hasher: Hasher)
      ensures Valid() && View() == EMPTY_DICT
    {
      this.hasher := hasher;
      buckets := map[];
      newEntries := [];
      nextFnId := 1;
      keys := [];
    }

    function Chain(h: nat): seq<Slot>
      reads this
    {
      ChainOf(buckets, h)
    }

    /** Probing by borrowed key, and by owning key, both read off the id. */
    lemma ProbesAgree(r: FunctionKeyRef)
      requires Valid()
      ensures FindRef(Chain(hasher(WritesOfRef(r))), r) == IdOf(keys, ToOwned(r))
      ensures FindKey(Chain(hasher(Writes(ToOwned(r)))), ToOwned(r)) == IdOf(keys, ToOwned(r))
    {
      var k := ToOwned(r);
      var h := hasher(Writes(k));
      var chain := Chain(h);
      if k in keys {
        var i := IdOf(keys, k) - 1;
        assert Stored(hasher, buckets, keys, i);
        var j :| 0 <= j < |chain| && chain[j] == Slot(k, i + 1);
      }
      forall slot | slot in chain && slot.key == k
        ensures slot.id == IdOf(keys, k)
      {
        assert SlotOk(hasher, keys, h, slot);
        IdsBijective(keys, k, k);
      }
    }

    /** `contains_key_ref`. */
    predicate ContainsKeyRef(r: FunctionKeyRef)
      reads this
      requires Valid()
      ensures ContainsKeyRef(r) <==> ToOwned(r) in View().keys
    {
      ProbesAgree(r);
      FindRef(Chain(hasher(WritesOfRef(r))), r) != 0
    }

    /** `contains_key`. */
    predicate ContainsKey(k: FunctionKey)
      reads this
      requires Valid()
      ensures ContainsKey(k) <==> k in View().keys
    {
      ProbesAgree(AsRef(k));
      FindKey(Chain(hasher(Writes(k))), k) != 0
    }

    /** The vacant arm: slot, entry and next id, whatever the key and the hash. */
    method Insert(h: nat, key: FunctionKey, entry: DictEntry)
      requires Valid()
      modifies this
      ensures Valid() <==> key !in old(keys) && h == hasher(Writes(key))
      ensures View() == Dict(old(keys) + [key], old(newEntries) + [entry])
    {
      FiledSoundIff(hasher, buckets, keys, h, key);
      buckets := buckets[h := Chain(h) + [Slot(key, nextFnId)]];
      newEntries := newEntries + [entry];
      nextFnId := nextFnId + 1;
      keys := keys + [key];
    }

    /** `intern`: hit or miss decided with the owning key. */
    method Intern(key: FunctionKey, build: nat -> DictEntry) returns (id: nat)
      requires Valid()
      modifies this
      ensures Valid() && (View(), id) == InternSpec(old(View()), key, build)
    {
      ProbesAgree(AsRef(key));
      var h := hasher(Writes(key));
      var existing := FindKey(Chain(h), key);
      if existing != 0 {
        return existing;
      }
      id := nextFnId;
      IdOfLast(keys, key);
      Insert(h, key, build(id));
    }

    /** `intern_ref`: hit or miss decided with the borrowed key. On a miss whatever
        key the build closure returns is filed under the borrowed key's hash, so
        the table stays sound exactly when that key is new and hashes alike; for
        the key that was borrowed the call is lookup-or-insert. */
    method InternRef(r: FunctionKeyRef, build: nat -> (FunctionKey, DictEntry)) returns (id: nat, outcome: ProbeOutcome)
      requires Valid()
      modifies this
      ensures outcome == if ToOwned(r) in old(View()).keys then Hit else Miss
      ensures outcome == Hit ==> Valid() && View() == old(View()) && id == IdOf(old(keys), ToOwned(r))
      ensures outcome == Miss ==>
        && id == |old(keys)| + 1
        && View() == Dict(old(keys) + [build(id).0], old(newEntries) + [build(id).1])
        && (Valid() <==> build(id).0 !in old(keys) && hasher(Writes(build(id).0)) == hasher(WritesOfRef(r)))
      ensures outcome == Hit || build(id).0 == ToOwned(r) ==>
        Valid() && (View(), id) == InternSpec(old(View()), ToOwned(r), (n: nat) => build(n).1)
    {
      assert nextFnId == |keys| + 1;
      hide Sound, InternSpec, IdOf, FindRef, ChainOf, Writes, WritesOfRef, ToOwned;
      ProbesAgree(r);
      InternCases(View(), ToOwned(r), (n: nat) => build(n).1);
      var h := hasher(WritesOfRef(r));
      var existing := FindRef(Chain(h), r);
      if existing != 0 {
        return existing, Hit;
      }
      id := nextFnId;
      var (key, entry) := build(id);
      Insert(h, key, entry);
      outcome := Miss;
    }

    /** `take_new_entries`: the journal moves, the ids stay. */
    method TakeNewEntries() returns (entries: seq<DictEntry>)
      requires Valid()
      modifies this
      ensures Valid() && entries == old(View()).staged && View() == old(View()).(staged := [])
    {
      entries := newEntries;
      newEntries := [];
    }
  }
}
