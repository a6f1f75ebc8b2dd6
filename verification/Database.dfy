// The multi-version key-value store every replica executes its log against (db.go).

module Store {
  import opened Ballots

  type Key = int

  // A Go []byte: nil is told apart from an empty slice, except by bytes.Equal.
  datatype Value = Nil | Bytes(bytes: seq<int>)
  {
    function Content(): seq<int> { if Nil? then [] else bytes }

    predicate Equals(v: Value) { Content() == v.Content() }
  }

  datatype Command = Command(key: Key, value: Value, clientID: ID, commandID: int)
  {
    predicate IsRead() { value == Nil }

    predicate Equal(a: Command) {
      key == a.key && value.Equals(a.value) && clientID == a.clientID && commandID == a.commandID
    }
  }

  const NO_COMMAND := Command(0, Nil, 0, 0)

  // ---- the store as a value ---------------------------------------------------------------

  datatype Table = Table(data: map<Key, Value>, version: int, multiversion: bool, history: map<Key, seq<Value>>)
  {
    function Read(k: Key): Value { if k in data then data[k] else Nil }

    function History(k: Key): seq<Value> { if k in history then history[k] else [] }

    function Put(k: Key, v: Value): Table {
      if v == Nil then this
      else Table(data[k := v], version + 1, multiversion,
                 if multiversion then history[k := History(k) + [v]] else history)
    }

    function Execute(c: Command): Table { Put(c.key, c.value) }

    function ExecuteAll(cs: seq<Command>): Table
      decreases |cs|
    {
      if cs == [] then this else ExecuteAll(cs[..|cs| - 1]).Execute(cs[|cs| - 1])
    }

    /** The value every command of a batch returns: what its key held just before it ran. */
    function Replies(cs: seq<Command>): seq<Value>
      decreases |cs|
    {
      if cs == [] then []
      else Replies(cs[..|cs| - 1]) + [ExecuteAll(cs[..|cs| - 1]).Read(cs[|cs| - 1].key)]
    }
  }

  function EmptyTable(multiversion: bool): Table { Table(map[], 0, multiversion, map[]) }

  class Database {
    var data: map<Key, Value>
    var version: int
    const multiversion: bool
    var history: map<Key, seq<Value>>

    function View(): Table reads this { Table(data, version, multiversion, history) }

    constructor (multiversion: bool)
      ensures View() == EmptyTable(multiversion)
    {
      this.data, this.version, this.multiversion, this.history := map[], 0, multiversion, map[];
    }

    method Execute(c: Command) returns (v: Value)
      modifies this
      ensures v == old(View()).Read(c.key)
      ensures View() == old(View()).Execute(c)
    {
      v := if c.key in data then data[c.key] else Nil;
      put(c.key, c.value);
    }

    method put(k: Key, v: Value)
      modifies this
      ensures View() == old(View()).Put(k, v)
    {
      if v != Nil {
        data := data[k := v];
        version := version + 1;
        if multiversion {
          if k !in history {
            history := history[k := []];
          }
          history := history[k := history[k] + [v]];
        }
      }
    }
  }

  // ---- what the store remembers ---------------------------------------------------------------

  /** The non-nil values written to key k, oldest first. */
  function Writes(cs: seq<Command>, k: Key): seq<Value>
    decreases |cs|
  {
    if cs == [] then []
    else
      var c := cs[|cs| - 1];
      Writes(cs[..|cs| - 1], k) + if c.key == k && c.value != Nil then [c.value] else []
  }

  /** Command i is the last of cs to write something to key k. */
  ghost predicate LastWrite(cs: seq<Command>, k: Key, i: nat) {
    && i < |cs| && cs[i].key == k && cs[i].value != Nil
    && forall j :: i < j < |cs| ==> cs[j].key != k || cs[j].value == Nil
  }

  lemma {:induction false} LastWriteIsLast(cs: seq<Command>, k: Key, i: nat)
    requires LastWrite(cs, k, i)
    ensures Writes(cs, k) != [] && Writes(cs, k)[|Writes(cs, k)| - 1] == cs[i].value
    decreases |cs|
  {
    var n := |cs| - 1;
    if i < n {
      assert cs[n].key != k || cs[n].value == Nil;
      assert forall j :: 0 <= j < n ==> cs[..n][j] == cs[j];
      LastWriteIsLast(cs[..n], k, i);
    }
  }

  lemma {:induction false} NoneWritten(cs: seq<Command>, k: Key)
    requires forall i :: 0 <= i < |cs| ==> cs[i].key != k || cs[i].value == Nil
    ensures Writes(cs, k) == []
    decreases |cs|
  {
    if cs != [] { NoneWritten(cs[..|cs| - 1], k); }
  }

  /** After a batch a key holds what was written to it last, and its history has grown by all that was written to it. */
  lemma {:induction false} StoreRemembers(t: Table, cs: seq<Command>, k: Key)
    ensures var u, ws := t.ExecuteAll(cs), Writes(cs, k);
            && u.Read(k) == (if ws == [] then t.Read(k) else ws[|ws| - 1])
            && u.History(k) == (if t.multiversion then t.History(k) + ws else t.History(k))
            && u.multiversion == t.multiversion
    decreases |cs|
  {
    if cs != [] { StoreRemembers(t, cs[..|cs| - 1], k); }
  }

  function Written(cs: seq<Command>): set<int> { set i | 0 <= i < |cs| && cs[i].value != Nil }

  /** The version counts the writes. */
  lemma {:induction false} VersionCounts(t: Table, cs: seq<Command>)
    ensures t.ExecuteAll(cs).version == t.version + |Written(cs)|
    decreases |cs|
  {
    if cs == [] {
      assert Written(cs) == {};
    } else {
      var n := |cs| - 1;
      VersionCounts(t, cs[..n]);
      assert Written(cs) == if cs[n].value != Nil then Written(cs[..n]) + {n} else Written(cs[..n]);
    }
  }

  /** Every command of a batch returns the value written last to its key before it, or what the store held. */
  lemma RepliesAreLastWrites(t: Table, cs: seq<Command>, i: nat)
    requires i < |cs|
    ensures |t.Replies(cs)| == |cs|
    ensures forall j: nat :: LastWrite(cs[..i], cs[i].key, j) ==> t.Replies(cs)[i] == cs[j].value
    ensures (forall j :: 0 <= j < i ==> cs[j].key != cs[i].key || cs[j].value == Nil)
            ==> t.Replies(cs)[i] == t.Read(cs[i].key)
  {
    RepliesAt(t, cs, i);
    StoreRemembers(t, cs[..i], cs[i].key);
    forall j: nat | LastWrite(cs[..i], cs[i].key, j) ensures t.Replies(cs)[i] == cs[j].value {
      LastWriteIsLast(cs[..i], cs[i].key, j);
    }
    if forall j :: 0 <= j < i ==> cs[j].key != cs[i].key || cs[j].value == Nil {
      NoneWritten(cs[..i], cs[i].key);
    }
  }

  lemma {:induction false} RepliesAt(t: Table, cs: seq<Command>, i: nat)
    requires i < |cs|
    ensures |t.Replies(cs)| == |cs| && t.Replies(cs)[i] == t.ExecuteAll(cs[..i]).Read(cs[i].key)
    decreases |cs|
  {
    var n := |cs| - 1;
    if n > 0 {
      RepliesAt(t, cs[..n], if i < n then i else 0);
      assert i < n ==> cs[..n][..i] == cs[..i];
    }
  }

  // ---- conflicts --------------------------------------------------------------------------

  predicate Conflict(gamma: Command, delta: Command) {
    gamma.key == delta.key && (!gamma.IsRead() || !delta.IsRead())
  }

  method ConflictBatch(batch1: seq<Command>, batch2: seq<Command>) returns (conflict: bool)
    ensures conflict <==> exists i, j :: 0 <= i < |batch1| && 0 <= j < |batch2| && Conflict(batch1[i], batch2[j])
  {
    for i := 0 to |batch1|
      invariant forall a, b :: 0 <= a < i && 0 <= b < |batch2| ==> !Conflict(batch1[a], batch2[b])
    {
      for j := 0 to |batch2|
        invariant forall b :: 0 <= b < j ==> !Conflict(batch1[i], batch2[b])
      {
        if Conflict(batch1[i], batch2[j]) {
          return true;
        }
      }
    }
    return false;
  }

  ghost predicate ConflictFree(xs: seq<Command>, ys: seq<Command>) {
    forall i, j :: 0 <= i < |xs| && 0 <= j < |ys| ==> !Conflict(xs[i], ys[j])
  }

  lemma {:induction false} ExecuteAllConcat(t: Table, xs: seq<Command>, ys: seq<Command>)
    ensures t.ExecuteAll(xs + ys) == t.ExecuteAll(xs).ExecuteAll(ys)
    ensures t.Replies(xs + ys) == t.Replies(xs) + t.ExecuteAll(xs).Replies(ys)
  {
    if ys == [] {
      assert xs + ys == xs;
    } else {
      var ys', y := ys[..|ys| - 1], ys[|ys| - 1];
      assert (xs + ys)[..|xs + ys| - 1] == xs + ys';
      ExecuteAllConcat(t, xs, ys');
      assert t.Replies(xs + ys) == t.Replies(xs + ys') + [t.ExecuteAll(xs + ys').Read(y.key)];
    }
  }

  lemma PutsCommute(t: Table, j: Key, v: Value, k: Key, w: Value)
    requires j != k && v != Nil && w != Nil
    ensures t.Put(j, v).Put(k, w) == t.Put(k, w).Put(j, v)
  {
    assert t.data[j := v][k := w] == t.data[k := w][j := v];
    var hv, hw := t.History(j) + [v], t.History(k) + [w];
    assert t.history[j := hv][k := hw] == t.history[k := hw][j := hv];
  }

  lemma CommandsCommute(t: Table, x: Command, y: Command)
    requires !Conflict(x, y)
    ensures t.Execute(x).Execute(y) == t.Execute(y).Execute(x)
    ensures t.Execute(x).Read(y.key) == t.Read(y.key)
    ensures t.Execute(y).Read(x.key) == t.Read(x.key)
  {
    if x.value != Nil && y.value != Nil {
      PutsCommute(t, x.key, x.value, y.key, y.value);
    }
  }

  lemma {:induction false} CommandPastBatch(t: Table, x: Command, ys: seq<Command>)
    requires ConflictFree([x], ys)
    ensures t.Execute(x).ExecuteAll(ys) == t.ExecuteAll(ys).Execute(x)
    ensures t.Execute(x).Replies(ys) == t.Replies(ys)
    ensures t.ExecuteAll(ys).Read(x.key) == t.Read(x.key)
  {
    if ys != [] {
      var ys', y := ys[..|ys| - 1], ys[|ys| - 1];
      assert !Conflict([x][0], ys[|ys| - 1]);
      assert ConflictFree([x], ys') by {
        forall i, j | 0 <= i < 1 && 0 <= j < |ys'| ensures !Conflict([x][i], ys'[j]) {
          assert !Conflict([x][i], ys[j]);
        }
      }
      CommandPastBatch(t, x, ys');
      CommandsCommute(t.ExecuteAll(ys'), x, y);
    }
  }

  /** Conflict is exact: it holds just when, in some store, one command changes the other's reply. */
  lemma ConflictIffOrderShows(x: Command, y: Command)
    ensures Conflict(x, y) <==>
            exists t: Table :: t.Execute(x).Read(y.key) != t.Read(y.key) || t.Execute(y).Read(x.key) != t.Read(x.key)
  {
    if Conflict(x, y) {
      var w := if x.IsRead() then y else x;
      var other := Bytes(w.value.Content() + [0]);
      assert |w.value.Content() + [0]| != |w.value.Content()|;
      var t := Table(map[x.key := other], 0, false, map[]);
      assert t.Execute(w).Read(x.key) != t.Read(x.key);
    } else {
      forall t: Table ensures t.Execute(x).Read(y.key) == t.Read(y.key) && t.Execute(y).Read(x.key) == t.Read(x.key) {
        CommandsCommute(t, x, y);
      }
    }
  }

  lemma SuffixesAgree<T>(p: seq<T>, a: seq<T>, b: seq<T>)
    requires p + a == p + b
    ensures a == b
  {
    assert a == (p + a)[|p|..] && b == (p + b)[|p|..];
  }

  /** Two batches with no conflict give the same store and the same replies in either order. */
  lemma {:induction false} BatchesCommute(t: Table, xs: seq<Command>, ys: seq<Command>)
    requires ConflictFree(xs, ys)
    ensures t.ExecuteAll(xs + ys) == t.ExecuteAll(ys + xs)
    ensures t.Replies(xs + ys) == t.Replies(xs) + t.Replies(ys)
    ensures t.Replies(ys + xs) == t.Replies(ys) + t.Replies(xs)
  {
    ExecuteAllConcat(t, xs, ys);
    ExecuteAllConcat(t, ys, xs);
    if xs != [] {
      var xs', x := xs[..|xs| - 1], xs[|xs| - 1];
      assert ConflictFree(xs', ys) by {
        forall i, j | 0 <= i < |xs'| && 0 <= j < |ys| ensures !Conflict(xs'[i], ys[j]) {
          assert !Conflict(xs[i], ys[j]);
        }
      }
      assert ConflictFree([x], ys) by {
        forall i, j | 0 <= i < 1 && 0 <= j < |ys| ensures !Conflict([x][i], ys[j]) {
          assert !Conflict(xs[|xs| - 1], ys[j]);
        }
      }
      BatchesCommute(t, xs', ys);
      ExecuteAllConcat(t, xs', ys);
      ExecuteAllConcat(t, ys, xs');
      CommandPastBatch(t.ExecuteAll(xs'), x, ys);
      assert t.ExecuteAll(ys).ExecuteAll(xs') == t.ExecuteAll(xs').ExecuteAll(ys);
      SuffixesAgree(t.Replies(xs'), t.ExecuteAll(xs').Replies(ys), t.Replies(ys));
      assert t.ExecuteAll(xs).Replies(ys) == t.Replies(ys);
      SuffixesAgree(t.Replies(ys), t.ExecuteAll(ys).Replies(xs'), t.Replies(xs'));
      assert t.ExecuteAll(ys).Replies(xs) == t.Replies(xs);
    } else {
      assert xs + ys == ys && ys + xs == ys;
    }
  }
}
