/**
 * The shared map `data` (id to name). `UserRowMapper.mapRow` puts every row
 * it maps into it; nothing ever removes a key.
 */
module Cache {
  import opened Records

  /** The map after the records `s` were mapped in order, starting from `m`. */
  function Upsert(m: map<string, string>, s: seq<CustomerPojo>): (r: map<string, string>)
    decreases |s|
  {
    if |s| == 0 then m
    else Upsert(m, s[..|s| - 1])[s[|s| - 1].id := s[|s| - 1].name]
  }

  /** Mapping one more record updates just its id. */
  lemma UpsertSnoc(m: map<string, string>, s: seq<CustomerPojo>, x: CustomerPojo)
    ensures Upsert(m, s + [x]) == Upsert(m, s)[x.id := x.name]
  {
    assert (s + [x])[..|s|] == s;
  }

  function Ids(s: seq<CustomerPojo>): set<string>
  {
    set i | 0 <= i < |s| :: s[i].id
  }

  /** The keys afterwards are the old keys plus the ids mapped: none is removed. */
  lemma {:induction false} UpsertKeys(m: map<string, string>, s: seq<CustomerPojo>)
    ensures Upsert(m, s).Keys == m.Keys + Ids(s)
    decreases |s|
  {
    if |s| > 0 {
      var init := s[..|s| - 1];
      UpsertKeys(m, init);
      assert Ids(s) == Ids(init) + {s[|s| - 1].id} by {
        forall k | k in Ids(s) ensures k in Ids(init) + {s[|s| - 1].id} {
          var i :| 0 <= i < |s| && s[i].id == k;
          if i < |s| - 1 { assert init[i] == s[i]; }
        }
        forall k | k in Ids(init) ensures k in Ids(s) {
          var i :| 0 <= i < |init| && init[i].id == k;
          assert s[i] == init[i];
        }
      }
    }
  }

  /** A key is bound to the name of the last record with that id: a later duplicate wins. */
  lemma {:induction false} UpsertLastWins(m: map<string, string>, s: seq<CustomerPojo>, i: nat)
    requires i < |s|
    requires forall j :: i < j < |s| ==> s[j].id != s[i].id
    ensures s[i].id in Upsert(m, s) && Upsert(m, s)[s[i].id] == s[i].name
    decreases |s|
  {
    if i < |s| - 1 {
      var init := s[..|s| - 1];
      UpsertLastWins(m, init, i);
    }
  }

  /** A key that no record mapped keeps its old value. */
  lemma {:induction false} UpsertKeepsOthers(m: map<string, string>, s: seq<CustomerPojo>, k: string)
    requires k in m
    requires forall j :: 0 <= j < |s| ==> s[j].id != k
    ensures k in Upsert(m, s) && Upsert(m, s)[k] == m[k]
    decreases |s|
  {
    if |s| > 0 {
      UpsertKeepsOthers(m, s[..|s| - 1], k);
    }
  }

  /** Mapping `a` and then `b` is mapping `a + b`: successive passes accumulate. */
  lemma {:induction false} UpsertAppend(m: map<string, string>, a: seq<CustomerPojo>, b: seq<CustomerPojo>)
    ensures Upsert(m, a + b) == Upsert(Upsert(m, a), b)
    decreases |b|
  {
    if |b| == 0 {
      assert a + b == a;
    } else {
      assert (a + b)[..|a + b| - 1] == a + b[..|b| - 1];
      UpsertAppend(m, a, b[..|b| - 1]);
    }
  }
}
