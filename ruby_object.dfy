/**
  Ruby values as the Blueprint layer handles them, and the two helpers of
  lib/redsnow/object.rb: `deep_symbolize_keys` and `blank?`.

  A Ruby Hash is an ordered list of entries with distinct keys; assigning to a
  key that is already present replaces its value in place, a new key is
  appended.  Keys are the Strings a JSON parser produces or the Symbols that
  `deep_symbolize_keys` turns them into.
 */
module RubyObject {
  import opened Wrappers

  datatype Key = StrKey(name: string) | SymKey(name: string)

  datatype Value =
    | Nil
    | Bool(b: bool)
    | Int(i: int)
    | Str(s: string)
    | Sym(s: string)
    | Arr(items: seq<Value>)
    | Hash(entries: seq<Entry>)

  datatype Entry = Entry(key: Key, val: Value)

  /** Everything but `nil` and `false` is true in a Ruby condition. */
  predicate Truthy(v: Value) {
    v != Nil && v != Bool(false)
  }

  /** Strings, Symbols, Arrays and Hashes answer `empty?`. */
  predicate RespondsToEmpty(v: Value) {
    v.Str? || v.Sym? || v.Arr? || v.Hash?
  }

  predicate IsEmpty(v: Value)
    requires RespondsToEmpty(v)
  {
    match v
    case Str(s) => s == ""
    case Sym(s) => s == ""
    case Arr(xs) => xs == []
    case Hash(es) => es == []
  }

  /** `blank?`: `empty?` where the value answers it, falsiness otherwise. */
  function Blank(v: Value): (r: bool)
    ensures r <==> v in {Nil, Bool(false), Str(""), Sym(""), Arr([]), Hash([])}
  {
    if RespondsToEmpty(v) then IsEmpty(v) else !Truthy(v)
  }

  /** `Symbol#to_sym` is the identity, `String#to_sym` interns the text. */
  function ToSym(k: Key): (r: Key)
    ensures r.SymKey? && r.name == k.name
  {
    SymKey(k.name)
  }

  predicate UniqueKeys(es: seq<Entry>) {
    forall i, j | 0 <= i < j < |es| :: es[i].key != es[j].key
  }

  predicate HasKey(es: seq<Entry>, k: Key) {
    exists i | 0 <= i < |es| :: es[i].key == k
  }

  /** `hash[k]` on a Hash: the value stored under `k`, if any. */
  function Lookup(es: seq<Entry>, k: Key): (r: Option<Value>)
    ensures r.None? <==> !HasKey(es, k)
  {
    if es == [] then None
    else if es[0].key == k then Some(es[0].val)
    else Lookup(es[1..], k)
  }

  /** The value `hash[k]` finds is that of the first entry keyed `k`. */
  lemma {:induction false} LookupFirstMatch(es: seq<Entry>, k: Key, i: nat)
    requires i < |es| && es[i].key == k
    requires forall j | 0 <= j < i :: es[j].key != k
    ensures Lookup(es, k) == Some(es[i].val)
  {
    if i > 0 {
      LookupFirstMatch(es[1..], k, i - 1);
    }
  }

  /** `hash[k]` as Ruby evaluates it: `nil` when the key is absent. */
  function Fetch(es: seq<Entry>, k: Key): (r: Value)
    ensures !HasKey(es, k) ==> r == Nil
    ensures HasKey(es, k) ==> Lookup(es, k) == Some(r)
  {
    match Lookup(es, k)
    case Some(v) => v
    case None => Nil
  }

  /** `hash[k] = v`: replaces the value in place if `k` is present, appends otherwise. */
  function Store(es: seq<Entry>, k: Key, v: Value): (r: seq<Entry>)
    ensures forall e | e in r :: e in es || e == Entry(k, v)
    ensures !HasKey(es, k) ==> r == es + [Entry(k, v)]
    ensures HasKey(es, k) ==> |r| == |es|
  {
    if es == [] then [Entry(k, v)]
    else if es[0].key == k then [Entry(k, v)] + es[1..]
    else
      var rest := Store(es[1..], k, v);
      assert !HasKey(es, k) ==> !HasKey(es[1..], k);
      [es[0]] + rest
  }

  /** After `hash[k] = v`, `hash[k]` is `v` and every other key reads as before. */
  lemma {:induction false} StoreLookup(es: seq<Entry>, k: Key, v: Value, k': Key)
    ensures Lookup(Store(es, k, v), k') == if k' == k then Some(v) else Lookup(es, k')
  {
    if es != [] && es[0].key != k {
      StoreLookup(es[1..], k, v, k');
    }
  }

  /** Assignment keeps the keys of a Hash distinct. */
  lemma {:induction false} StoreUnique(es: seq<Entry>, k: Key, v: Value)
    requires UniqueKeys(es)
    ensures UniqueKeys(Store(es, k, v))
  {
    if es != [] && es[0].key != k {
      StoreUnique(es[1..], k, v);
      var r := Store(es, k, v);
      forall i, j | 0 <= i < j < |r| ensures r[i].key != r[j].key {
        if i == 0 {
          assert r[j] in Store(es[1..], k, v);
          assert r[j] in es[1..] || r[j] == Entry(k, v);
        }
      }
    }
  }

  /** The fold `reduce(memo) { |memo, (k, v)| memo[k] = v; memo }`. */
  function StoreAll(memo: seq<Entry>, es: seq<Entry>): (r: seq<Entry>)
    ensures UniqueKeys(memo) ==> UniqueKeys(r)
    ensures forall e | e in r :: e in memo || e in es
    decreases |es|
  {
    if es == [] then memo
    else
      var next := Store(memo, es[0].key, es[0].val);
      assert UniqueKeys(memo) ==> UniqueKeys(next) by {
        if UniqueKeys(memo) { StoreUnique(memo, es[0].key, es[0].val); }
      }
      StoreAll(next, es[1..])
  }

  /** Every Hash in the tree has distinct Symbol keys. */
  predicate Symbolized(v: Value) {
    match v
    case Hash(es) =>
      UniqueKeys(es) && forall i | 0 <= i < |es| :: es[i].key.SymKey? && Symbolized(es[i].val)
    case Arr(xs) => forall i | 0 <= i < |xs| :: Symbolized(xs[i])
    case _ => true
  }

  /**
    `deep_symbolize_keys`: a Hash is rebuilt by folding its entries into an
    empty Hash under `to_sym` keys, an Array is rebuilt element by element,
    anything else is returned as it is.
   */
  function DeepSymbolizeKeys(v: Value): (r: Value)
    ensures Symbolized(r)
    ensures v.Hash? <==> r.Hash?
    ensures v.Arr? <==> r.Arr?
    ensures v.Arr? ==> (|r.items| == |v.items| &&
      forall i | 0 <= i < |v.items| :: r.items[i] == DeepSymbolizeKeys(v.items[i]))
    ensures !v.Hash? && !v.Arr? ==> r == v
  {
    match v
    case Hash(es) =>
      var ses := seq(|es|, i requires 0 <= i < |es| => Entry(ToSym(es[i].key), DeepSymbolizeKeys(es[i].val)));
      var out := StoreAll([], ses);
      assert forall e | e in ses :: e.key.SymKey? && Symbolized(e.val);
      assert forall i | 0 <= i < |out| :: out[i] in ses;
      Hash(out)
    case Arr(xs) => Arr(seq(|xs|, i requires 0 <= i < |xs| => DeepSymbolizeKeys(xs[i])))
    case _ => v
  }

  /** The value of the last entry keyed `k`: the one a left fold of assignments leaves behind. */
  function LastLookup(es: seq<Entry>, k: Key): (r: Option<Value>)
  {
    if es == [] then None
    else
      var later := LastLookup(es[1..], k);
      if later.Some? then later
      else if es[0].key == k then Some(es[0].val)
      else None
  }

  lemma {:induction false} LastLookupAt(es: seq<Entry>, k: Key, i: nat)
    requires i < |es| && es[i].key == k
    requires forall j | i < j < |es| :: es[j].key != k
    ensures LastLookup(es, k) == Some(es[i].val)
  {
    if i == 0 {
      LastLookupAbsent(es[1..], k);
    } else {
      LastLookupAt(es[1..], k, i - 1);
    }
  }

  lemma {:induction false} LastLookupAbsent(es: seq<Entry>, k: Key)
    requires forall j | 0 <= j < |es| :: es[j].key != k
    ensures LastLookup(es, k) == None
  {
    if es != [] {
      LastLookupAbsent(es[1..], k);
    }
  }

  lemma {:induction false} LastLookupPresent(es: seq<Entry>, k: Key)
    ensures LastLookup(es, k).Some? <==> HasKey(es, k)
  {
    if es != [] {
      LastLookupPresent(es[1..], k);
      assert HasKey(es, k) <==> es[0].key == k || HasKey(es[1..], k) by {
        if HasKey(es[1..], k) {
          var j :| 0 <= j < |es[1..]| && es[1..][j].key == k;
          assert es[j + 1].key == k;
        }
      }
    }
  }

  /** Folding assignments: a key assigned by `es` ends up with its last value, any other keeps its `memo` value. */
  lemma {:induction false} StoreAllLookup(memo: seq<Entry>, es: seq<Entry>, k: Key)
    ensures Lookup(StoreAll(memo, es), k) ==
      if LastLookup(es, k).Some? then LastLookup(es, k) else Lookup(memo, k)
    decreases |es|
  {
    if es != [] {
      StoreAllLookup(Store(memo, es[0].key, es[0].val), es[1..], k);
      StoreLookup(memo, es[0].key, es[0].val, k);
    }
  }

  /** Assigning keys that are all new just appends them, in order. */
  lemma {:induction false} StoreAllFresh(memo: seq<Entry>, es: seq<Entry>)
    requires UniqueKeys(memo + es)
    ensures StoreAll(memo, es) == memo + es
    decreases |es|
  {
    if es != [] {
      forall i | 0 <= i < |memo| ensures memo[i].key != es[0].key {
        assert (memo + es)[i] == memo[i] && (memo + es)[|memo|] == es[0];
      }
      assert memo + [es[0]] + es[1..] == memo + es;
      StoreAllFresh(memo + [es[0]], es[1..]);
    }
  }

  /** A tree whose keys are already distinct Symbols is left unchanged. */
  lemma {:induction false} SymbolizedFixed(v: Value)
    requires Symbolized(v)
    ensures DeepSymbolizeKeys(v) == v
  {
    match v
    case Hash(es) =>
      var ses := seq(|es|, i requires 0 <= i < |es| => Entry(ToSym(es[i].key), DeepSymbolizeKeys(es[i].val)));
      forall i | 0 <= i < |es| ensures ses[i] == es[i] {
        SymbolizedFixed(es[i].val);
      }
      assert ses == es;
      assert [] + es == es;
      StoreAllFresh([], es);
    case Arr(xs) =>
      forall i | 0 <= i < |xs| ensures DeepSymbolizeKeys(xs[i]) == xs[i] {
        SymbolizedFixed(xs[i]);
      }
      assert DeepSymbolizeKeys(v).items == xs;
    case _ =>
  }

  /** `deep_symbolize_keys` is idempotent. */
  lemma DeepSymbolizeKeysIdempotent(v: Value)
    ensures DeepSymbolizeKeys(DeepSymbolizeKeys(v)) == DeepSymbolizeKeys(v)
  {
    SymbolizedFixed(DeepSymbolizeKeys(v));
  }

  /**
    When two keys of a Hash map to the same Symbol, the entry that comes later
    wins: the result holds the converted value of the last entry with that Symbol.
   */
  lemma DeepSymbolizeKeysLaterWins(es: seq<Entry>, i: nat)
    requires i < |es|
    requires forall j | i < j < |es| :: ToSym(es[j].key) != ToSym(es[i].key)
    ensures Lookup(DeepSymbolizeKeys(Hash(es)).entries, ToSym(es[i].key)) ==
      Some(DeepSymbolizeKeys(es[i].val))
  {
    var k := ToSym(es[i].key);
    var ses := seq(|es|, j requires 0 <= j < |es| => Entry(ToSym(es[j].key), DeepSymbolizeKeys(es[j].val)));
    LastLookupAt(ses, k, i);
    StoreAllLookup([], ses, k);
  }

  /** The keys of the result are exactly the `to_sym` of the original keys. */
  lemma DeepSymbolizeKeysKeys(es: seq<Entry>, k: Key)
    ensures HasKey(DeepSymbolizeKeys(Hash(es)).entries, k) <==>
      exists i | 0 <= i < |es| :: ToSym(es[i].key) == k
  {
    var ses := seq(|es|, j requires 0 <= j < |es| => Entry(ToSym(es[j].key), DeepSymbolizeKeys(es[j].val)));
    StoreAllLookup([], ses, k);
    LastLookupPresent(ses, k);
    assert HasKey(ses, k) <==> exists i | 0 <= i < |es| :: ToSym(es[i].key) == k by {
      if HasKey(ses, k) {
        var i :| 0 <= i < |ses| && ses[i].key == k;
        assert ToSym(es[i].key) == k;
      }
      if exists i | 0 <= i < |es| :: ToSym(es[i].key) == k {
        var i :| 0 <= i < |es| && ToSym(es[i].key) == k;
        assert ses[i].key == k;
      }
    }
  }
}
