/**
 * The block colour mapping (`currentColorMapping`, a `Dictionary<string, string>`), the
 * specification of how `SetupBlockColorMapping` fills it, and the text it logs.
 *
 * The dictionary is never removed from, so .NET enumerates it in first-insertion order; the model
 * keeps that order as `keys` beside the lookup `table`. `TrialController.SetupBlockColorMapping`
 * (in trial_controller.dfy) is the loop; `Mapping` and `MappingText` say what it computes.
 */
module ColorMaps {
  import opened Strings
  import opened ExperimentConfig
  import opened Runs

  datatype ColorMap = ColorMap(keys: seq<string>, table: map<string, string>)

  /** `new Dictionary<string, string>()`. */
  const Empty := ColorMap([], map[])

  predicate Distinct(s: seq<string>) {
    forall i, j :: 0 <= i < j < |s| ==> s[i] != s[j]
  }

  /** Each key is listed once, and the listed keys are exactly the table's keys. */
  ghost predicate Valid(m: ColorMap) {
    Distinct(m.keys) && forall k :: k in m.table <==> k in m.keys
  }

  /** `dictionary[key] = value`: a present key keeps its place, a new key goes last. */
  function Put(m: ColorMap, key: string, value: string): (r: ColorMap)
    ensures r.table == m.table[key := value]
  {
    if key in m.table then m.(table := m.table[key := value])
    else ColorMap(m.keys + [key], m.table[key := value])
  }

  /** Putting keeps the key list valid. */
  lemma PutValid(m: ColorMap, key: string, value: string)
    requires Valid(m)
    ensures Valid(Put(m, key, value))
  {
  }

  /** `dictionary[keys[i]] = values[i]` for i = 0, 1, ... in order. */
  function PutAll(m: ColorMap, keys: seq<string>, values: seq<string>): ColorMap
    requires |keys| == |values|
    decreases |keys|
  {
    if keys == [] then m else PutAll(Put(m, keys[0], values[0]), keys[1..], values[1..])
  }

  /** The table's keys grow by exactly the keys put, and the key list stays valid. */
  lemma {:induction false} PutAllKeys(m: ColorMap, keys: seq<string>, values: seq<string>)
    requires |keys| == |values|
    ensures PutAll(m, keys, values).table.Keys == m.table.Keys + set k | k in keys
    ensures Valid(m) ==> Valid(PutAll(m, keys, values))
    decreases |keys|
  {
    if |keys| > 0 {
      var m1 := Put(m, keys[0], values[0]);
      if Valid(m) {
        PutValid(m, keys[0], values[0]);
      }
      PutAllKeys(m1, keys[1..], values[1..]);
      assert PutAll(m, keys, values) == PutAll(m1, keys[1..], values[1..]);
      assert (set k | k in keys) == {keys[0]} + set k | k in keys[1..];
    }
  }

  /** A key no later put touches keeps its value. */
  lemma {:induction false} PutAllKeeps(m: ColorMap, keys: seq<string>, values: seq<string>, k: string)
    requires |keys| == |values| && k in m.table && k !in keys
    ensures k in PutAll(m, keys, values).table
    ensures PutAll(m, keys, values).table[k] == m.table[k]
    decreases |keys|
  {
    if keys != [] {
      assert k != keys[0] && k !in keys[1..];
      PutAllKeeps(Put(m, keys[0], values[0]), keys[1..], values[1..], k);
    }
  }

  /** With distinct keys, the i-th key ends up mapped to the i-th value. */
  lemma {:induction false} PutAllAt(m: ColorMap, keys: seq<string>, values: seq<string>, i: nat)
    requires |keys| == |values| && Distinct(keys) && i < |keys|
    ensures keys[i] in PutAll(m, keys, values).table
    ensures PutAll(m, keys, values).table[keys[i]] == values[i]
    decreases i
  {
    var m' := Put(m, keys[0], values[0]);
    if i == 0 {
      assert keys[0] !in keys[1..] by {
        forall j | 0 <= j < |keys[1..]| ensures keys[1..][j] != keys[0] {
          assert keys[1..][j] == keys[j + 1];
        }
      }
      PutAllKeeps(m', keys[1..], values[1..], keys[0]);
    } else {
      assert keys[1..][i - 1] == keys[i];
      PutAllAt(m', keys[1..], values[1..], i - 1);
    }
  }

  /** With distinct keys, every key ends up mapped to the value at its position. */
  lemma PutAllZip(m: ColorMap, keys: seq<string>, values: seq<string>)
    requires |keys| == |values| && Distinct(keys)
    ensures forall i :: 0 <= i < |keys| ==>
      keys[i] in PutAll(m, keys, values).table && PutAll(m, keys, values).table[keys[i]] == values[i]
  {
    forall i | 0 <= i < |keys|
      ensures keys[i] in PutAll(m, keys, values).table && PutAll(m, keys, values).table[keys[i]] == values[i]
    {
      PutAllAt(m, keys, values, i);
    }
  }

  /** Putting distinct keys into an empty dictionary lists them in the order they were put. */
  lemma {:induction false} PutAllOrder(m: ColorMap, keys: seq<string>, values: seq<string>)
    requires |keys| == |values| && Distinct(m.keys + keys) && Valid(m)
    ensures PutAll(m, keys, values).keys == m.keys + keys
    decreases |keys|
  {
    if keys == [] {
      assert m.keys + keys == m.keys;
    } else {
      assert (m.keys + keys)[|m.keys|] == keys[0];
      assert keys[0] !in m.keys by {
        forall j | 0 <= j < |m.keys| ensures m.keys[j] != keys[0] {
          assert (m.keys + keys)[j] == m.keys[j];
        }
      }
      var m' := Put(m, keys[0], values[0]);
      assert m'.keys + keys[1..] == m.keys + keys;
      PutAllOrder(m', keys[1..], values[1..]);
    }
  }

  /** If every key put so far maps to itself, putting each key as its own value keeps it so. */
  lemma {:induction false} PutAllIdentity(m: ColorMap, keys: seq<string>)
    requires forall k :: k in m.table ==> m.table[k] == k
    ensures forall k :: k in PutAll(m, keys, keys).table ==> PutAll(m, keys, keys).table[k] == k
    decreases |keys|
  {
    if keys != [] {
      PutAllIdentity(Put(m, keys[0], keys[0]), keys[1..]);
    }
  }

  // ------------------------------------------------------------ the draws

  /** `list.RemoveAt(i)`. */
  function RemoveAt(s: seq<string>, i: nat): (r: seq<string>)
    requires i < |s|
    ensures |r| == |s| - 1
  {
    s[..i] + s[i + 1..]
  }

  /** Removing an entry takes one occurrence of it out of the list and leaves the rest. */
  lemma RemoveAtCount(s: seq<string>, i: nat)
    requires i < |s|
    ensures multiset(RemoveAt(s, i)) == multiset(s) - multiset{s[i]}
  {
    assert s == s[..i] + [s[i]] + s[i + 1..];
  }

  /**
   * The Confusion targets: draw an index into the pool, take that entry, remove it, and go on
   * with the next draw until the pool is empty. The targets are a rearrangement of the pool.
   */
  function DrawAll(pool: seq<string>, rng: nat -> nat, draw: nat): (targets: seq<string>)
    ensures |targets| == |pool|
    decreases |pool|
  {
    if pool == [] then []
    else
      var i := RandomRange(rng, draw, |pool|);
      [pool[i]] + DrawAll(RemoveAt(pool, i), rng, draw + 1)
  }

  /** Every pool entry is drawn exactly as often as it occurs in the pool. */
  lemma {:induction false} DrawAllPermutes(pool: seq<string>, rng: nat -> nat, draw: nat)
    ensures multiset(DrawAll(pool, rng, draw)) == multiset(pool)
    decreases |pool|
  {
    if pool != [] {
      var i := RandomRange(rng, draw, |pool|);
      DrawAllPermutes(RemoveAt(pool, i), rng, draw + 1);
      RemoveAtCount(pool, i);
    }
  }

  /** The value each colour is given: itself under Control, the drawn target under Confusion. */
  function Targets(condition: TrialCondition, colors: seq<string>, rng: nat -> nat, draw: nat): seq<string> {
    if condition == Control then colors else DrawAll(colors, rng, draw)
  }

  /** How many draws the set-up consumes: none under Control, one per colour under Confusion. */
  function DrawsUsed(condition: TrialCondition, colors: seq<string>): nat {
    if condition == Control then 0 else |colors|
  }

  /**
   * The mapping `SetupBlockColorMapping` builds from the k-th draw on. Under either condition its
   * keys are exactly the configured colours, each listed once.
   */
  function Mapping(condition: TrialCondition, colors: seq<string>, rng: nat -> nat, draw: nat): (r: ColorMap)
    ensures r.table.Keys == set c | c in colors
    ensures Valid(r)
  {
    PutAllKeys(Empty, colors, Targets(condition, colors, rng, draw));
    PutAll(Empty, colors, Targets(condition, colors, rng, draw))
  }

  /** Under Control every configured colour maps to itself. */
  lemma ControlIsIdentity(colors: seq<string>, rng: nat -> nat, draw: nat)
    ensures forall c :: c in colors ==> c in Mapping(Control, colors, rng, draw).table
    ensures forall c :: c in colors ==> Mapping(Control, colors, rng, draw).table[c] == c
  {
    PutAllIdentity(Empty, colors);
  }

  lemma {:induction false} DistinctCount(s: seq<string>, x: string)
    requires Distinct(s)
    ensures multiset(s)[x] <= 1
    decreases |s|
  {
    if s != [] {
      assert s == [s[0]] + s[1..];
      assert Distinct(s[1..]) by {
        forall i, j | 0 <= i < j < |s[1..]| ensures s[1..][i] != s[1..][j] {
          assert s[1..][i] == s[i + 1] && s[1..][j] == s[j + 1];
        }
      }
      DistinctCount(s[1..], x);
      assert s[0] !in s[1..] by {
        forall j | 0 <= j < |s[1..]| ensures s[1..][j] != s[0] {
          assert s[1..][j] == s[j + 1];
        }
      }
    }
  }

  lemma TwoOccurrences(t: seq<string>, i: nat, j: nat)
    requires i < j < |t|
    ensures t[i] == t[j] ==> multiset(t)[t[i]] >= 2
  {
    assert t == t[..i] + [t[i]] + t[i + 1..j] + [t[j]] + t[j + 1..];
  }

  /** A rearrangement of a list without repeats has no repeats. */
  lemma DistinctRearranged(s: seq<string>, t: seq<string>)
    requires Distinct(s) && multiset(s) == multiset(t)
    ensures Distinct(t)
  {
    forall i, j | 0 <= i < j < |t| ensures t[i] != t[j] {
      TwoOccurrences(t, i, j);
      DistinctCount(s, t[i]);
    }
  }

  /** A mapping that sends the i-th key to the i-th of a rearrangement of the keys maps keys to keys. */
  lemma ZipInto(keys: seq<string>, targets: seq<string>, m: map<string, string>)
    requires |targets| == |keys| && multiset(targets) == multiset(keys)
    requires m.Keys == set c | c in keys
    requires forall i :: 0 <= i < |keys| ==> m[keys[i]] == targets[i]
    ensures forall c :: c in m ==> m[c] in keys
  {
    forall c | c in m ensures m[c] in keys {
      var i :| 0 <= i < |keys| && keys[i] == c;
      assert targets[i] in multiset(keys);
    }
  }

  /** ... and, when the keys are distinct, no two keys share a target ... */
  lemma ZipInjective(keys: seq<string>, targets: seq<string>, m: map<string, string>)
    requires Distinct(keys) && |targets| == |keys| && multiset(targets) == multiset(keys)
    requires m.Keys == set c | c in keys
    requires forall i :: 0 <= i < |keys| ==> m[keys[i]] == targets[i]
    ensures forall c, d :: c in m && d in m && m[c] == m[d] ==> c == d
  {
    DistinctRearranged(keys, targets);
    forall c, d | c in m && d in m && m[c] == m[d] ensures c == d {
      var i :| 0 <= i < |keys| && keys[i] == c;
      var j :| 0 <= j < |keys| && keys[j] == d;
      assert targets[i] == targets[j];
    }
  }

  /** ... and every key is some key's target. */
  lemma ZipOnto(keys: seq<string>, targets: seq<string>, m: map<string, string>)
    requires |targets| == |keys| && multiset(targets) == multiset(keys)
    requires forall i :: 0 <= i < |keys| ==> keys[i] in m && m[keys[i]] == targets[i]
    ensures forall t :: t in keys ==> exists c :: c in m && m[c] == t
  {
    forall t | t in keys ensures exists c :: c in m && m[c] == t {
      assert t in multiset(targets);
      var j :| 0 <= j < |targets| && targets[j] == t;
      assert keys[j] in m && m[keys[j]] == t;
    }
  }

  /**
   * `m` is a bijection of the colour set: every colour is a key and nothing else is, every key
   * maps to a colour, no two keys share a target, and every colour is some key's target.
   */
  ghost predicate BijectionOn(m: map<string, string>, colors: seq<string>) {
    && m.Keys == (set c | c in colors)
    && (forall c :: c in m ==> m[c] in colors)
    && (forall c, d :: c in m && d in m && m[c] == m[d] ==> c == d)
    && (forall t :: t in colors ==> exists c :: c in m && m[c] == t)
  }

  /** Under Confusion with distinct colours the mapping is a bijection of the colour set. */
  lemma ConfusionIsBijection(colors: seq<string>, rng: nat -> nat, draw: nat)
    requires Distinct(colors)
    ensures BijectionOn(Mapping(Confusion, colors, rng, draw).table, colors)
  {
    var targets := DrawAll(colors, rng, draw);
    DrawAllPermutes(colors, rng, draw);
    var mp := PutAll(Empty, colors, targets);
    assert Mapping(Confusion, colors, rng, draw) == mp;
    PutAllZip(Empty, colors, targets);
    ZipInto(colors, targets, mp.table);
    ZipInjective(colors, targets, mp.table);
    ZipOnto(colors, targets, mp.table);
  }

  /**
   * No derangement is enforced: under Confusion, whenever the first draw is 0 the first colour
   * maps to itself.
   */
  lemma ConfusionMayKeepAColour(rng: nat -> nat, draw: nat)
    requires rng(draw) == 0
    ensures Mapping(Confusion, ["Red", "Green"], rng, draw).table["Red"] == "Red"
  {
    var colors := ["Red", "Green"];
    assert RandomRange(rng, draw, 2) == 0;
    var targets := DrawAll(colors, rng, draw);
    assert targets[0] == "Red";
  }

  // ------------------------------------------------------------ the text

  /** One `"{Key}->{Value}"` entry. */
  function PairText(key: string, value: string): string {
    key + "->" + value
  }

  /** The accumulated string: every entry in key order, each followed by one space. */
  function PairsText(keys: seq<string>, table: map<string, string>): string
    requires forall k :: k in keys ==> k in table
    decreases |keys|
  {
    if keys == [] then ""
    else PairsText(keys[..|keys| - 1], table) + PairText(keys[|keys| - 1], table[keys[|keys| - 1]]) + " "
  }

  /** The BlockColorMapping payload: the accumulated string, trimmed. */
  function MappingText(m: ColorMap): string
    requires forall k :: k in m.keys ==> k in m.table
  {
    Trim(PairsText(m.keys, m.table))
  }

  /** The entries of a mapping, in key order. */
  function Pairs(keys: seq<string>, table: map<string, string>): (r: seq<string>)
    requires forall k :: k in keys ==> k in table
    ensures |r| == |keys|
  {
    seq(|keys|, i requires 0 <= i < |keys| => PairText(keys[i], table[keys[i]]))
  }

  /** Before trimming, the string is the entries joined by single spaces, plus one trailing space. */
  lemma {:induction false} PairsTextIsJoin(keys: seq<string>, table: map<string, string>)
    requires forall k :: k in keys ==> k in table
    requires |keys| >= 1
    ensures PairsText(keys, table) == Join(Pairs(keys, table), ' ') + " "
    decreases |keys|
  {
    var n := |keys|;
    var init := keys[..n - 1];
    if n == 1 {
      assert PairsText(init, table) == "";
    } else {
      PairsTextIsJoin(init, table);
      assert Pairs(keys, table) == Pairs(init, table) + [PairText(keys[n - 1], table[keys[n - 1]])];
      JoinSnoc(Pairs(init, table), PairText(keys[n - 1], table[keys[n - 1]]), ' ');
    }
  }

  /** A string that neither begins nor ends with white space (it may be empty). */
  predicate Unpadded(s: string) {
    s == [] || (!IsWhiteSpace(s[0]) && !IsWhiteSpace(s[|s| - 1]))
  }

  /**
   * The payload is the `k->v` entries in colour order separated by single spaces, the trailing
   * space trimmed away, provided the first colour does not begin and the last target does not
   * end with white space (the trim would take those too). An empty mapping gives "".
   */
  lemma MappingTextIsPairs(m: ColorMap)
    requires forall k :: k in m.keys ==> k in m.table
    requires m.keys != [] ==> Unpadded(m.keys[0]) && Unpadded(m.table[m.keys[|m.keys| - 1]])
    ensures m.keys == [] ==> MappingText(m) == ""
    ensures m.keys != [] ==> MappingText(m) == Join(Pairs(m.keys, m.table), ' ')
  {
    if m.keys != [] {
      var ps := Pairs(m.keys, m.table);
      PairsTextIsJoin(m.keys, m.table);
      var j := Join(ps, ' ');
      JoinStartsAndEnds(ps, ' ');
      assert ps[0] == PairText(m.keys[0], m.table[m.keys[0]]);
      TrimDropsTrailingSpace(j);
    }
  }

  /** A join begins with its first piece and ends with its last. */
  lemma {:induction false} JoinStartsAndEnds(parts: seq<string>, sep: char)
    requires |parts| >= 1
    ensures IsPrefix(parts[0], Join(parts, sep))
    ensures var j := Join(parts, sep); |parts[|parts| - 1]| <= |j| && j[|j| - |parts[|parts| - 1]|..] == parts[|parts| - 1]
    decreases |parts|
  {
    if |parts| > 1 {
      JoinStartsAndEnds(parts[1..], sep);
    }
  }

  /** The entries `c->c` for every colour c, in order. */
  function IdentityPairs(colors: seq<string>): seq<string> {
    seq(|colors|, i requires 0 <= i < |colors| => PairText(colors[i], colors[i]))
  }

  /** The entries of a mapping that lists the colours in order and sends each to itself. */
  lemma IdentityPairsOf(m: ColorMap, colors: seq<string>)
    requires m.keys == colors
    requires forall c :: c in colors ==> c in m.table && m.table[c] == c
    ensures Pairs(m.keys, m.table) == IdentityPairs(colors)
  {
    var ps := Pairs(m.keys, m.table);
    forall i | 0 <= i < |colors| ensures ps[i] == IdentityPairs(colors)[i] {
      assert colors[i] in colors;
    }
  }

  /** Under Control with distinct colours the key list is the colour list. */
  lemma ControlKeysInOrder(colors: seq<string>, rng: nat -> nat, draw: nat)
    requires Distinct(colors)
    ensures Mapping(Control, colors, rng, draw).keys == colors
  {
    PutAllOrder(Empty, colors, colors);
  }

  /**
   * Under Control with distinct colours the payload lists `c->c` for every colour c, in the
   * configured order (given the same white-space proviso).
   */
  lemma ControlText(colors: seq<string>, rng: nat -> nat, draw: nat)
    requires Distinct(colors) && colors != []
    requires Unpadded(colors[0]) && Unpadded(colors[|colors| - 1])
    ensures MappingText(Mapping(Control, colors, rng, draw)) == Join(IdentityPairs(colors), ' ')
  {
    var m := Mapping(Control, colors, rng, draw);
    ControlKeysInOrder(colors, rng, draw);
    ControlIsIdentity(colors, rng, draw);
    IdentityPairsOf(m, colors);
    MappingTextIsPairs(m);
  }
}
