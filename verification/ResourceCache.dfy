/** The resource cache of the skill loader: least recently used entries leave first, and only as many as must. */
module ResourceCache {
  import opened Prelude

  /** A resource is named by its release and the hash of its content, so what it loads to is a function of the key. */
  datatype Key = Key(release: string, hash: string)

  datatype Entry = Entry(key: Key, value: string, size: nat)

  datatype LoadError = Unreadable(why: string) | TooLarge

  function Total(entries: seq<Entry>): nat {
    if entries == [] then 0 else entries[0].size + Total(entries[1..])
  }

  /** The total without the n oldest entries. */
  function TotalFrom(entries: seq<Entry>, n: nat): nat
    requires n <= |entries|
  {
    Total(entries[n..])
  }

  function Keys(entries: seq<Entry>): seq<Key> {
    seq(|entries|, i requires 0 <= i < |entries| => entries[i].key)
  }

  predicate HasKey(entries: seq<Entry>, key: Key) { exists i | 0 <= i < |entries| :: entries[i].key == key }

  function Remove(keys: seq<Key>, key: Key): seq<Key> {
    if keys == [] then [] else (if keys[0] == key then [] else [keys[0]]) + Remove(keys[1..], key)
  }

  /** The keys answered so far, oldest first. */
  datatype History = Start | Then(before: History, key: Key)

  /** The keys of a history, each once, in the order of their last use. */
  function Recent(history: History): seq<Key> {
    match history
    case Start => []
    case Then(before, key) => Remove(Recent(before), key) + [key]
  }

  predicate IsSuffix<T(==)>(part: seq<T>, whole: seq<T>) {
    |part| <= |whole| && whole[|whole| - |part|..] == part
  }

  ghost predicate Distinct(entries: seq<Entry>) {
    forall i, j :: 0 <= i < j < |entries| ==> entries[i].key != entries[j].key
  }

  /* ---------- sums ---------- */

  lemma {:induction false} TotalConcat(a: seq<Entry>, b: seq<Entry>)
    ensures Total(a + b) == Total(a) + Total(b)
  {
    if a == [] {
      assert a + b == b;
    } else {
      assert (a + b)[1..] == a[1..] + b;
      TotalConcat(a[1..], b);
    }
  }

  lemma SplitAt<T>(s: seq<T>, i: nat)
    requires i < |s|
    ensures s == s[..i] + ([s[i]] + s[i + 1..])
  {
  }

  /** Taking one entry out and putting it back at the end changes no total. */
  lemma TotalMoved(entries: seq<Entry>, i: nat)
    requires i < |entries|
    ensures Total(entries[..i] + entries[i + 1..] + [entries[i]]) == Total(entries)
    ensures entries[i].size <= Total(entries)
  {
    var before, e, after := entries[..i], [entries[i]], entries[i + 1..];
    SplitAt(entries, i);
    TotalConcat(before, e + after);
    TotalConcat(e, after);
    TotalConcat(before + after, e);
    TotalConcat(before, after);
    assert Total(e) == entries[i].size + Total([]);
  }

  /* ---------- recency ---------- */

  lemma {:induction false} RemoveConcat(a: seq<Key>, b: seq<Key>, key: Key)
    ensures Remove(a + b, key) == Remove(a, key) + Remove(b, key)
  {
    if a == [] {
      assert a + b == b;
    } else {
      assert (a + b)[1..] == a[1..] + b;
      RemoveConcat(a[1..], b, key);
    }
  }

  lemma {:induction false} RemoveAbsent(keys: seq<Key>, key: Key)
    requires key !in keys
    ensures Remove(keys, key) == keys
  {
    if keys != [] {
      RemoveAbsent(keys[1..], key);
    }
  }

  lemma RemoveOnly(before: seq<Key>, key: Key, after: seq<Key>)
    requires key !in before && key !in after
    ensures Remove(before + ([key] + after), key) == before + after
  {
    RemoveConcat(before, [key] + after, key);
    RemoveConcat([key], after, key);
    RemoveAbsent(before, key);
    RemoveAbsent(after, key);
    assert Remove([key], key) == Remove([], key);
    assert [] + after == after;
  }

  /** Using a key keeps what is cached a suffix of the recency order. */
  lemma SuffixAfterUse(cached: seq<Key>, history: History, key: Key)
    requires IsSuffix(cached, Recent(history))
    ensures IsSuffix(Remove(cached, key) + [key], Recent(Then(history, key)))
  {
    var all := Recent(history);
    var early := all[..|all| - |cached|];
    assert all == early + cached;
    RemoveConcat(early, cached, key);
    assert Recent(Then(history, key)) == Remove(early, key) + (Remove(cached, key) + [key]);
  }

  /* ---------- the cache ---------- */

  /** What a cache is for: how it loads, how large a value is, and how much may be kept. */
  datatype Policy = Policy(load: Key -> Result<string, string>, encoded: string -> nat, maxBytes: int)

  predicate Faithful(policy: Policy, e: Entry) {
    policy.load(e.key) == Ok(e.value) && e.size == policy.encoded(e.value)
  }

  /**
    Every entry is what loading gives, with its encoded size; the counter is the
    sum and within the limit; and the entries are the most recently answered
    keys, oldest first.
  */
  ghost predicate CacheOk(policy: Policy, values: seq<Entry>, size: int, history: History) {
    && Distinct(values)
    && (forall i :: 0 <= i < |values| ==> Faithful(policy, values[i]))
    && size == Total(values)
    && (values == [] || size <= policy.maxBytes)
    && Newest(values, Recent(history))
  }

  /** The entries are the last ones of an order of keys, in that order. */
  ghost predicate Newest(values: seq<Entry>, order: seq<Key>) {
    && |values| <= |order|
    && forall i :: 0 <= i < |values| ==> order[|order| - |values| + i] == values[i].key
  }

  lemma NewestIsSuffix(values: seq<Entry>, order: seq<Key>)
    ensures Newest(values, order) <==> IsSuffix(Keys(values), order)
  {
    if Newest(values, order) {
      assert order[|order| - |values|..] == Keys(values);
    } else if |values| <= |order| {
      var i :| 0 <= i < |values| && order[|order| - |values| + i] != values[i].key;
      assert order[|order| - |values|..][i] != Keys(values)[i];
    }
  }

  function Touched(values: seq<Entry>, i: nat): seq<Entry>
    requires i < |values|
  {
    values[..i] + values[i + 1..] + [values[i]]
  }

  lemma TouchedKeys(values: seq<Entry>, i: nat)
    requires i < |values| && Distinct(values)
    ensures Keys(Touched(values, i)) == Remove(Keys(values), values[i].key) + [values[i].key]
  {
    var key, before, after := values[i].key, Keys(values[..i]), Keys(values[i + 1..]);
    assert Keys(values) == before + ([key] + after);
    assert Keys(Touched(values, i)) == before + after + [key];
    RemoveOnly(before, key, after);
  }

  lemma TouchKeepsOrder(values: seq<Entry>, history: History, i: nat)
    requires i < |values| && Distinct(values) && Newest(values, Recent(history))
    ensures Newest(Touched(values, i), Recent(Then(history, values[i].key)))
  {
    TouchedKeys(values, i);
    NewestIsSuffix(values, Recent(history));
    SuffixAfterUse(Keys(values), history, values[i].key);
    NewestIsSuffix(Touched(values, i), Recent(Then(history, values[i].key)));
  }

  lemma AppendKeepsOrder(values: seq<Entry>, history: History, e: Entry)
    requires !HasKey(values, e.key) && Newest(values, Recent(history))
    ensures Newest(values + [e], Recent(Then(history, e.key)))
  {
    NewestIsSuffix(values, Recent(history));
    SuffixAfterUse(Keys(values), history, e.key);
    assert e.key !in Keys(values);
    RemoveAbsent(Keys(values), e.key);
    assert Keys(values + [e]) == Keys(values) + [e.key];
    NewestIsSuffix(values + [e], Recent(Then(history, e.key)));
  }

  lemma TouchKeeps(policy: Policy, values: seq<Entry>, size: int, history: History, i: nat)
    requires CacheOk(policy, values, size, history) && i < |values|
    ensures CacheOk(policy, Touched(values, i), size, Then(history, values[i].key))
  {
    TotalMoved(values, i);
    TouchKeepsOrder(values, history, i);
  }

  lemma DropKeeps(policy: Policy, values: seq<Entry>, size: int, history: History, n: nat)
    requires CacheOk(policy, values, size, history) && n <= |values|
    ensures CacheOk(policy, values[n..], Total(values[n..]), history)
  {
    assert values == values[..n] + values[n..];
    TotalConcat(values[..n], values[n..]);
  }

  lemma AppendKeeps(policy: Policy, values: seq<Entry>, size: int, history: History, e: Entry)
    requires CacheOk(policy, values, size, history) && !HasKey(values, e.key) && Faithful(policy, e) && size + e.size <= policy.maxBytes
    ensures CacheOk(policy, values + [e], size + e.size, Then(history, e.key))
  {
    TotalConcat(values, [e]);
    assert Total([e]) == e.size + Total([]);
    AppendKeepsOrder(values, history, e);
  }

  /** `after` is `before` without its n oldest entries, and no smaller n would have made room. */
  ghost predicate ShortestDrop(before: seq<Entry>, after: seq<Entry>, n: nat, incoming: nat, maxBytes: int) {
    && n <= |before| && after == before[n..]
    && Total(after) + incoming <= maxBytes
    && forall m :: 0 <= m < n ==> TotalFrom(before, m) + incoming > maxBytes
  }

  /** A hit: the entry moves to the recent end and nothing else changes. */
  ghost predicate Promotes(before: seq<Entry>, after: seq<Entry>, key: Key) {
    exists i :: 0 <= i < |before| && before[i].key == key && after == Touched(before, i)
  }

  lemma PromotesAt(values: seq<Entry>, i: nat)
    requires i < |values|
    ensures Promotes(values, Touched(values, i), values[i].key)
  {
  }

  /** A miss: the shortest sufficient prefix is dropped and the new entry stands at the recent end. */
  ghost predicate Admits(policy: Policy, before: seq<Entry>, after: seq<Entry>, key: Key, value: string) {
    && 1 <= |after| <= |before| + 1
    && after[|after| - 1] == Entry(key, value, policy.encoded(value))
    && ShortestDrop(before, after[..|after| - 1], |before| + 1 - |after|, policy.encoded(value), policy.maxBytes)
  }

  lemma AdmitsAfter(policy: Policy, before: seq<Entry>, left: seq<Entry>, n: nat, e: Entry)
    requires ShortestDrop(before, left, n, e.size, policy.maxBytes) && Faithful(policy, e)
    ensures Admits(policy, before, left + [e], e.key, e.value)
  {
    assert (left + [e])[..|left|] == left;
  }

  class Cache {
    var values: seq<Entry>
    var size: int
    var loads: nat
    ghost var history: History
    const policy: Policy

    ghost predicate Valid()
      reads this
    {
      CacheOk(policy, values, size, history)
    }

    constructor (policy: Policy)
      ensures Valid() && values == [] && history == Start && loads == 0 && this.policy == policy
    {
      values, size, loads, history := [], 0, 0, Start;
      this.policy := policy;
    }

    /** The answer without any cache, under the same limit. */
    function Uncached(key: Key): Result<string, LoadError> {
      match policy.load(key)
      case Err(why) => Err(Unreadable(why))
      case Ok(value) => if policy.encoded(value) > policy.maxBytes then Err(TooLarge) else Ok(value)
    }

    method Find(key: Key) returns (found: Option<nat>)
      ensures found.None? <==> !HasKey(values, key)
      ensures found.Some? ==> found.value < |values| && values[found.value].key == key
    {
      var i := 0;
      while i < |values|
        invariant 0 <= i <= |values| && forall k :: 0 <= k < i ==> values[k].key != key
      {
        if values[i].key == key {
          return Some(i);
        }
        i := i + 1;
      }
      return None;
    }

    /** Drop the least recently used entries, no more of them than the new one needs. */
    method MakeRoom(incoming: nat) returns (ghost dropped: nat)
      requires size == Total(values) && incoming <= policy.maxBytes
      modifies this`values, this`size
      ensures ShortestDrop(old(values), values, dropped, incoming, policy.maxBytes) && size == Total(values)
    {
      dropped := 0;
      ghost var was := values;
      while values != [] && size + incoming > policy.maxBytes
        invariant dropped <= |was| && values == was[dropped..] && size == Total(values)
        invariant forall n :: 0 <= n < dropped ==> TotalFrom(was, n) + incoming > policy.maxBytes
        decreases |values|
      {
        assert TotalFrom(was, dropped) == size;
        assert was[dropped..][1..] == was[dropped + 1..];
        size := size - values[0].size;
        values := values[1..];
        dropped := dropped + 1;
      }
    }

    method Hit(i: nat) returns (value: string)
      requires Valid() && i < |values|
      modifies this`values, this`history
      ensures Valid() && values == Touched(old(values), i)
      ensures history == Then(old(history), old(values)[i].key) && value == old(values)[i].value
    {
      var e := values[i];
      TouchKeeps(policy, values, size, history, i);
      values := values[..i] + values[i + 1..] + [e];
      history := Then(history, e.key);
      value := e.value;
    }

    /** The rows of a miss: make room, then append. */
    method Store(e: Entry) returns (ghost left: seq<Entry>, ghost dropped: nat)
      requires size == Total(values) && e.size <= policy.maxBytes
      modifies this
      ensures values == left + [e] && size == Total(left) + e.size
      ensures ShortestDrop(old(values), left, dropped, e.size, policy.maxBytes)
      ensures loads == old(loads) + 1 && history == Then(old(history), e.key)
    {
      dropped := MakeRoom(e.size);
      left := values;
      values := values + [e];
      size := size + e.size;
      loads := loads + 1;
      history := Then(history, e.key);
    }

    method Miss(e: Entry)
      requires Valid() && !HasKey(values, e.key) && Faithful(policy, e) && e.size <= policy.maxBytes
      modifies this
      ensures Valid() && Admits(policy, old(values), values, e.key, e.value)
      ensures history == Then(old(history), e.key) && loads == old(loads) + 1
    {
      ghost var left, n := Store(e);
      MissKeeps(policy, old(values), old(size), old(history), left, n, e);
    }

    /** get_or_load */
    method GetOrLoad(key: Key) returns (r: Result<string, LoadError>)
      requires Valid()
      modifies this
      ensures Valid()
      ensures r == Uncached(key)
      ensures r.Err? ==> values == old(values) && history == old(history) && size == old(size) && loads == old(loads)
      ensures r.Ok? ==> history == Then(old(history), key)
      ensures old(HasKey(values, key)) ==> r.Ok? && loads == old(loads) && Promotes(old(values), values, key)
      ensures !old(HasKey(values, key)) && r.Ok? ==> loads == old(loads) + 1 && Admits(policy, old(values), values, key, r.value)
    {
      var found := Find(key);
      if found.Some? {
        StoredIsRight(policy, values, size, history, found.value);
        PromotesAt(values, found.value);
        var value := Hit(found.value);
        return Ok(value);
      }
      var loaded := policy.load(key);
      if loaded.Err? {
        return Err(Unreadable(loaded.error));
      }
      var e := Entry(key, loaded.value, policy.encoded(loaded.value));
      if e.size > policy.maxBytes {
        return Err(TooLarge);
      }
      Miss(e);
      return Ok(loaded.value);
    }
  }

  /** A stored entry is what loading gives, and small enough to have been admitted. */
  lemma StoredIsRight(policy: Policy, values: seq<Entry>, size: int, history: History, i: nat)
    requires CacheOk(policy, values, size, history) && i < |values|
    ensures Faithful(policy, values[i]) && values[i].size <= policy.maxBytes
  {
    TotalMoved(values, i);
  }

  lemma MissKeeps(policy: Policy, before: seq<Entry>, size: int, history: History, left: seq<Entry>, n: nat, e: Entry)
    requires CacheOk(policy, before, size, history) && ShortestDrop(before, left, n, e.size, policy.maxBytes)
    requires !HasKey(before, e.key) && Faithful(policy, e)
    ensures CacheOk(policy, left + [e], Total(left) + e.size, Then(history, e.key))
    ensures Admits(policy, before, left + [e], e.key, e.value)
  {
    DropKeeps(policy, before, size, history, n);
    assert !HasKey(left, e.key);
    AppendKeeps(policy, left, Total(left), history, e);
    AdmitsAfter(policy, before, left, n, e);
  }
}
