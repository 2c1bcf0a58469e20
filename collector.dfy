/** The `Data` result collector: the readings appended so far, the set of
    cities that failed, and the number of failed attempts. */
module Collector {
  import opened Json
  import opened Seqs

  /** The three fields of a `Data` object, as a value. */
  datatype CollectorState = CollectorState(
    data: seq<Json>,
    failedCities: set<string>,
    failedCitiesCounter: nat)

  /** One call a task makes on the collector. */
  datatype Update = Append(temp: Json) | Failure(city: string)

  /** The state `Data.__init__` builds. */
  function Empty(): CollectorState {
    CollectorState([], {}, 0)
  }

  /** Distinct failed cities never outnumber failed attempts. */
  predicate Consistent(s: CollectorState) {
    |s.failedCities| <= s.failedCitiesCounter
  }

  /** The effect of one `append_data` or `record_failed_city` call. */
  function Apply(s: CollectorState, u: Update): (r: CollectorState)
    ensures |r.data| + r.failedCitiesCounter == |s.data| + s.failedCitiesCounter + 1
    ensures Consistent(s) ==> Consistent(r)
  {
    match u
    case Append(t) => s.(data := s.data + [t])
    case Failure(c) =>
      CollectorState(s.data, s.failedCities + {c}, s.failedCitiesCounter + 1)
  }

  /** The effect of a sequence of calls, made in order. */
  function ApplyAll(s: CollectorState, us: seq<Update>): (r: CollectorState)
    ensures |r.data| + r.failedCitiesCounter == |s.data| + s.failedCitiesCounter + |us|
    ensures Consistent(s) ==> Consistent(r)
    decreases |us|
  {
    if us == [] then s else Apply(ApplyAll(s, us[..|us| - 1]), us[|us| - 1])
  }

  /** Making the calls `us` and then the calls `vs` is making `us + vs`. */
  lemma {:induction false} ApplyAllConcat(s: CollectorState, us: seq<Update>, vs: seq<Update>)
    ensures ApplyAll(s, us + vs) == ApplyAll(ApplyAll(s, us), vs)
    decreases |vs|
  {
    if vs == [] {
      assert us + vs == us;
    } else {
      var init := vs[..|vs| - 1];
      assert (us + vs)[..|us + vs| - 1] == us + init;
      ApplyAllConcat(s, us, init);
    }
  }

  /** The readings carried by the appends among `us`, in order. */
  function Appended(us: seq<Update>): (ts: seq<Json>)
    ensures |ts| <= |us|
    decreases |us|
  {
    if us == [] then []
    else Appended(us[..|us| - 1]) + (match us[|us| - 1] case Append(t) => [t] case Failure(_) => [])
  }

  /** The cities named by the failures among `us`. */
  function FailedIn(us: seq<Update>): set<string>
    decreases |us|
  {
    if us == [] then {}
    else FailedIn(us[..|us| - 1]) + (match us[|us| - 1] case Failure(c) => {c} case Append(_) => {})
  }

  /** The number of failures among `us`. */
  function FailureCount(us: seq<Update>): nat
    decreases |us|
  {
    if us == [] then 0
    else FailureCount(us[..|us| - 1]) + (if us[|us| - 1].Failure? then 1 else 0)
  }

  /** After any sequence of calls, `data` holds exactly the appended readings
      in call order, `failed_cities` exactly the failed cities, and the
      counter the number of failures. */
  lemma {:induction false} ApplyAllContents(s: CollectorState, us: seq<Update>)
    ensures ApplyAll(s, us).data == s.data + Appended(us)
    ensures ApplyAll(s, us).failedCities == s.failedCities + FailedIn(us)
    ensures ApplyAll(s, us).failedCitiesCounter == s.failedCitiesCounter + FailureCount(us)
    decreases |us|
  {
    if us != [] {
      var init := us[..|us| - 1];
      ApplyAllContents(s, init);
    }
  }

  /** Starting from the empty collector, the invariant holds after any
      sequence of calls, and every call is accounted for exactly once. */
  lemma ReachableStatesAreConsistent(us: seq<Update>)
    ensures Consistent(ApplyAll(Empty(), us))
    ensures |ApplyAll(Empty(), us).data| + ApplyAll(Empty(), us).failedCitiesCounter == |us|
  {
  }

  /** Recording the same city twice adds two to the counter and at most one
      city to the set, and leaves the readings alone. */
  lemma RecordTwice(s: CollectorState, city: string)
    ensures var r := Apply(Apply(s, Failure(city)), Failure(city));
      && r.failedCitiesCounter == s.failedCitiesCounter + 2
      && |r.failedCities| <= |s.failedCities| + 1
      && city in r.failedCities
      && r.data == s.data
  {
  }

  /** Two collector states that agree up to the order of their readings. */
  predicate SameUpToOrder(a: CollectorState, b: CollectorState) {
    && multiset(a.data) == multiset(b.data)
    && a.failedCities == b.failedCities
    && a.failedCitiesCounter == b.failedCitiesCounter
  }

  lemma {:induction false} ApplySameUpToOrder(a: CollectorState, b: CollectorState, u: Update)
    requires SameUpToOrder(a, b)
    ensures SameUpToOrder(Apply(a, u), Apply(b, u))
  {
    if u.Append? {
      calc {
        multiset(Apply(a, u).data);
        multiset(a.data + [u.temp]);
        multiset(a.data) + multiset{u.temp};
        multiset(b.data) + multiset{u.temp};
        multiset(b.data + [u.temp]);
        multiset(Apply(b, u).data);
      }
    }
  }

  /** Two calls commute, up to the order of the readings. */
  lemma ApplyCommutes(s: CollectorState, u: Update, v: Update)
    ensures SameUpToOrder(Apply(Apply(s, u), v), Apply(Apply(s, v), u))
  {
    if u.Append? && v.Append? {
      assert Apply(Apply(s, u), v).data == s.data + [u.temp] + [v.temp];
      assert Apply(Apply(s, v), u).data == s.data + [v.temp] + [u.temp];
    }
  }

  /** Taking one call out of a sequence and making it last changes nothing
      but the order of the readings. */
  lemma {:induction false} ApplyAllRemove(s: CollectorState, us: seq<Update>, k: nat)
    requires k < |us|
    ensures SameUpToOrder(ApplyAll(s, us), Apply(ApplyAll(s, us[..k] + us[k + 1..]), us[k]))
    decreases |us|
  {
    var n := |us|;
    var init := us[..n - 1];
    if k == n - 1 {
      assert us[..k] + us[k + 1..] == init;
    } else {
      var without := us[..k] + us[k + 1..];
      var initWithout := init[..k] + init[k + 1..];
      assert without == initWithout + [us[n - 1]];
      assert without[..|without| - 1] == initWithout;
      ApplyAllRemove(s, init, k);
      var x := ApplyAll(s, initWithout);
      // ApplyAll(s, us) == Apply(ApplyAll(s, init), us[n-1]) and ApplyAll(s, init) ~ Apply(x, us[k])
      ApplySameUpToOrder(ApplyAll(s, init), Apply(x, us[k]), us[n - 1]);
      ApplyCommutes(x, us[k], us[n - 1]);
    }
  }

  /** The collector's final state does not depend on the order in which the
      tasks report, except for the order of the readings. */
  lemma {:induction false} ApplyAllOrderIndependent(s: CollectorState, us: seq<Update>, vs: seq<Update>)
    requires multiset(us) == multiset(vs)
    ensures SameUpToOrder(ApplyAll(s, us), ApplyAll(s, vs))
    decreases |us|
  {
    if us == [] {
      assert vs == [] by { assert |vs| == |multiset(vs)| == 0; }
    } else {
      var n := |us|;
      var last := us[n - 1];
      var k := MatchLast(us, vs);
      var vsWithout := vs[..k] + vs[k + 1..];
      ApplyAllOrderIndependent(s, us[..n - 1], vsWithout);
      ApplySameUpToOrder(ApplyAll(s, us[..n - 1]), ApplyAll(s, vsWithout), last);
      ApplyAllRemove(s, vs, k);
    }
  }

  /** The collector object. Its fields are updated in place by the tasks. */
  class Data {
    var data: seq<Json>
    var failedCities: set<string>
    var failedCitiesCounter: nat

    /** The fields, as a value. */
    function State(): CollectorState
      reads this
    {
      CollectorState(data, failedCities, failedCitiesCounter)
    }

    constructor ()
      ensures State() == Empty()
    {
      data := [];
      failedCities := {};
      failedCitiesCounter := 0;
    }

    /** `append_data(temp)`: one more reading, nothing else changes. */
    method AppendData(temp: Json)
      modifies this
      ensures data == old(data) + [temp]
      ensures failedCities == old(failedCities)
      ensures failedCitiesCounter == old(failedCitiesCounter)
      ensures State() == Apply(old(State()), Append(temp))
    {
      data := data + [temp];
    }

    /** `get_data()`: the readings collected so far. */
    method GetData() returns (d: seq<Json>)
      ensures d == data
    {
      d := data;
    }

    /** `record_failed_city(city)`: one more failed attempt and `city` in the
        set; the readings do not change. */
    method RecordFailedCity(city: string)
      modifies this
      ensures failedCitiesCounter == old(failedCitiesCounter) + 1
      ensures failedCities == old(failedCities) + {city}
      ensures data == old(data)
      ensures State() == Apply(old(State()), Failure(city))
    {
      failedCitiesCounter := failedCitiesCounter + 1;
      failedCities := failedCities + {city};
    }

    /** `get_failed_cities()`: the distinct cities that failed so far. */
    method GetFailedCities() returns (cities: set<string>)
      ensures cities == failedCities
    {
      cities := failedCities;
    }
  }
}
