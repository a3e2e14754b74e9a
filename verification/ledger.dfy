/**
  The deduplication and country filter applied to each marker of the scan
  (main.py:193-202), as a specification over the stream of markers in the order
  they are returned: `Admitted(seen, ms)` is the list of markers that go on to be
  enriched and written, given the ids `seen` before the stream starts.
*/
module Ledger {
  import opened Wrappers
  import opened Enrichment

  /** The countries whose stores are kept. */
  const AllowedCountries: set<string> := {"ES", "PT", "AD"}

  /** `marker.get("id")`. */
  function IdOf(m: Marker): StoreId
  {
    if "id" in m then Some(m["id"]) else None
  }

  /** `marker.get("country") in ["ES", "PT", "AD"]`: a marker without a country fails. */
  predicate CountryAllowed(m: Marker)
  {
    "country" in m && m["country"] in AllowedCountries
  }

  /** The ids of a list of markers. */
  function Ids(ms: seq<Marker>): set<StoreId>
    decreases |ms|
  {
    if ms == [] then {} else {IdOf(ms[0])} + Ids(ms[1..])
  }

  /** The ids of two lists one after the other. */
  lemma {:induction false} IdsConcat(a: seq<Marker>, b: seq<Marker>)
    ensures Ids(a + b) == Ids(a) + Ids(b)
    decreases |a|
  {
    if a == [] {
      assert a + b == b;
    } else {
      assert (a + b)[0] == a[0] && (a + b)[1..] == a[1..] + b;
      IdsConcat(a[1..], b);
    }
  }

  lemma IdsAppend(ms: seq<Marker>, m: Marker)
    ensures Ids(ms + [m]) == Ids(ms) + {IdOf(m)}
  {
    IdsConcat(ms, [m]);
    assert [m][1..] == [];
  }

  /** A marker whose id was seen is skipped; otherwise its id becomes seen, and it is kept
      when its country passes the filter. */
  function Admitted(seen: set<StoreId>, ms: seq<Marker>): seq<Marker>
    decreases |ms|
  {
    if ms == [] then []
    else
      var id := IdOf(ms[0]);
      if id in seen then Admitted(seen, ms[1..])
      else if !CountryAllowed(ms[0]) then Admitted(seen + {id}, ms[1..])
      else [ms[0]] + Admitted(seen + {id}, ms[1..])
  }

  /** One marker's step: kept or not, after which its id counts as seen. */
  lemma AdmittedStep(seen: set<StoreId>, ms: seq<Marker>)
    requires ms != []
    ensures Admitted(seen, ms)
         == (if IdOf(ms[0]) !in seen && CountryAllowed(ms[0]) then [ms[0]] else [])
            + Admitted(seen + {IdOf(ms[0])}, ms[1..])
  {
    if IdOf(ms[0]) in seen {
      assert seen + {IdOf(ms[0])} == seen;
    }
  }

  /** Splitting the stream (one tile's markers after another's): the second part is
      filtered against the ids seen before it, including those of rejected markers. */
  lemma {:induction false} AdmittedConcat(seen: set<StoreId>, a: seq<Marker>, b: seq<Marker>)
    ensures Admitted(seen, a + b) == Admitted(seen, a) + Admitted(seen + Ids(a), b)
    decreases |a|
  {
    if a == [] {
      assert a + b == b;
      assert Ids(a) == {};
      assert seen + Ids(a) == seen;
    } else {
      var id := IdOf(a[0]);
      var seen' := if id in seen then seen else seen + {id};
      assert (a + b)[0] == a[0] && (a + b)[1..] == a[1..] + b;
      AdmittedConcat(seen', a[1..], b);
      assert seen' + Ids(a[1..]) == seen + Ids(a);
    }
  }

  /** A marker appended to the stream is kept exactly when its id is neither among the ids
      seen before the stream nor among those of any earlier marker, whatever the earlier
      markers' countries, and its own country passes: rows come in first-sighting order. */
  lemma AdmittedAppend(seen: set<StoreId>, ms: seq<Marker>, m: Marker)
    ensures Admitted(seen, ms + [m]) ==
      Admitted(seen, ms) + (if IdOf(m) !in seen + Ids(ms) && CountryAllowed(m) then [m] else [])
  {
    AdmittedConcat(seen, ms, [m]);
    assert [m][1..] == [];
  }

  /** Every kept marker comes from the stream, has an id not seen before it and passes the
      country filter. */
  lemma {:induction false} AdmittedFrom(seen: set<StoreId>, ms: seq<Marker>)
    ensures forall m :: m in Admitted(seen, ms) ==> m in ms && IdOf(m) !in seen && CountryAllowed(m)
    decreases |ms|
  {
    if ms != [] {
      AdmittedStep(seen, ms);
      AdmittedFrom(seen + {IdOf(ms[0])}, ms[1..]);
    }
  }

  /** No two kept markers share an id. */
  lemma {:induction false} AdmittedDistinct(seen: set<StoreId>, ms: seq<Marker>)
    ensures forall i, j :: 0 <= i < j < |Admitted(seen, ms)| ==>
              IdOf(Admitted(seen, ms)[i]) != IdOf(Admitted(seen, ms)[j])
    decreases |ms|
  {
    if ms != [] {
      var id := IdOf(ms[0]);
      if id in seen {
        AdmittedDistinct(seen, ms[1..]);
      } else {
        AdmittedDistinct(seen + {id}, ms[1..]);
        if CountryAllowed(ms[0]) {
          var rest := Admitted(seen + {id}, ms[1..]);
          AdmittedFrom(seen + {id}, ms[1..]);
          var all := [ms[0]] + rest;
          assert Admitted(seen, ms) == all;
          forall i, j | 0 <= i < j < |all| ensures IdOf(all[i]) != IdOf(all[j]) {
            if i == 0 {
              assert all[j] in rest;
            } else {
              assert all[i] == rest[i - 1] && all[j] == rest[j - 1];
            }
          }
        }
      }
    }
  }

  /** An id already seen is skipped whatever its country. */
  lemma SeenIdSkipped(seen: set<StoreId>, m: Marker, rest: seq<Marker>)
    requires IdOf(m) in seen
    ensures Admitted(seen, [m] + rest) == Admitted(seen, rest)
  {
    assert ([m] + rest)[1..] == rest;
  }

  /** A marker rejected by the country filter still marks its id seen: no later marker
      with that id is kept, even one whose country would pass. */
  lemma RejectedIdStaysRejected(seen: set<StoreId>, m: Marker, rest: seq<Marker>)
    requires IdOf(m) !in seen && !CountryAllowed(m)
    ensures forall a :: a in Admitted(seen, [m] + rest) ==> IdOf(a) != IdOf(m)
  {
    assert ([m] + rest)[1..] == rest;
    AdmittedFrom(seen + {IdOf(m)}, rest);
  }

  /** Presenting a marker's id twice in a row of the stream gives at most one kept marker. */
  lemma RepeatedIdKeptAtMostOnce(seen: set<StoreId>, m1: Marker, m2: Marker)
    requires IdOf(m1) == IdOf(m2)
    ensures |Admitted(seen, [m1, m2])| <= 1
  {
    var id := IdOf(m1);
    assert [m1, m2][1..] == [m2];
    assert [m2][1..] == [];
    var seen' := seen + {id};
    assert Admitted(seen', [m2]) == [];
    assert Admitted(seen, [m2]) == [] || Admitted(seen, [m2]) == [m2];
  }

  /** One tile returns stores "1" (ES) and "2" (FR), a later tile "1" again and "3" (PT):
      "1" and "3" are kept, in that order. */
  lemma OverlappingTilesScenario()
    ensures var s1, s2, s3 := map["id" := "1", "country" := "ES"], map["id" := "2", "country" := "FR"],
                               map["id" := "3", "country" := "PT"];
      Admitted({}, [s1, s2] + [s1, s3]) == [s1, s3]
  {
    var s1, s2, s3 := map["id" := "1", "country" := "ES"], map["id" := "2", "country" := "FR"],
                      map["id" := "3", "country" := "PT"];
    var ms := [s1, s2] + [s1, s3];
    assert ms[1..] == [s2, s1, s3] && ms[1..][1..] == [s1, s3] && ms[1..][1..][1..] == [s3];
    assert [s3][1..] == [];
    assert IdOf(s1) == Some("1") && IdOf(s2) == Some("2") && IdOf(s3) == Some("3");
    assert !CountryAllowed(s2) && CountryAllowed(s1) && CountryAllowed(s3);
    var one, two, three := Some("1"), Some("2"), Some("3");
    assert Admitted({one, two, three}, []) == [];
    assert Admitted({one, two}, [s3]) == [s3];
    assert Admitted({one, two}, [s1, s3]) == [s3];
    assert {one} + {two} == {one, two} && {one, two} + {three} == {one, two, three};
    assert Admitted({one}, [s2, s1, s3]) == [s3];
    assert {} + {one} == {one};
  }
}
