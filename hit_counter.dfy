/**
 * The hit counter's two HTTP functions, `Post` (record a visit of one
 * fingerprint to one site) and `Get` (report a site's count), over an
 * abstract view of the two Cosmos containers: the site container is the
 * set of registered site ids, the hit container a map from each row's
 * (partition key, id) to its `hitCount`.
 */
module HitCounter {
  import opened Wrappers
  import opened Strings
  import opened Hits

  /** The hit container: the `hitCount` of every stored row, by address. */
  type Table = map<Key, int>

  /** The HTTP results the two functions produce. */
  datatype Response =
    | Ok                              // 200, empty body (Post)
    | BadRequest                      // 400
    | HitResponse(hitCount: nat)      // 200 with `{ "hitCount": n }` (Get)
    | InternalServerError             // 500: a store failure Post does not catch

  /** How a store call ends: success, or a `CosmosException` with its status. */
  datatype Status = Success | NotFound | Conflict | OtherFailure

  /** The three store calls `Post` makes. */
  datatype Primitive = Patch | Read | Create

  /**
   * What the rest of the world does during one `Post`.
   * `racerHits > 0`: a concurrent `Post` for the same site and fingerprint
   * created the row between this call's failed patch and its create, and
   * the row holds `racerHits` by the time this call's create arrives.
   * `failing == Some(p)`: the store call `p` fails with a status `Post`
   * does not handle (throttling, network, ...).
   */
  datatype Env = Env(racerHits: nat, failing: Option<Primitive>)

  /** A call with no concurrent writer and no store failure. */
  const Quiet := Env(0, None)

  /**
   * The store invariant: every row's count is at least 1 and every row's
   * partition is a registered site.
   */
  predicate WellFormed(sites: set<string>, hits: Table) {
    forall k :: k in hits ==> hits[k] >= 1 && k.siteId in sites
  }

  /** Whether `Post` rejects its inputs before touching the store. */
  predicate Invalid(siteId: string, fingerprint: Option<string>) {
    IsNullOrWhiteSpace(Some(siteId)) || IsNullOrWhiteSpace(fingerprint)
  }

  /**
   * What `Post` does: its response and the hit container afterwards (the
   * site container is never written).
   */
  function PostSpec(sites: set<string>, hits: Table, siteId: string, fingerprint: Option<string>, env: Env): (r: (Response, Table))
    // Blank site id or missing/blank fingerprint: rejected, nothing written.
    ensures Invalid(siteId, fingerprint) ==> r == (BadRequest, hits)
    // Post never answers with a count.
    ensures !r.0.HitResponse?
    ensures !Invalid(siteId, fingerprint) && env.failing == Some(Patch) ==> r == (InternalServerError, hits)
    ensures !Invalid(siteId, fingerprint) && env.failing != Some(Patch) ==>
      var key := Key(siteId, fingerprint.value);
      // Repeat visit: that row's count goes up by exactly one, nothing else changes.
      && (key in hits ==>
            r.0 == Ok && r.1.Keys == hits.Keys && r.1[key] == hits[key] + 1
            && forall k :: k in hits && k != key ==> r.1[k] == hits[k])
      // First visit to an unregistered site: rejected, no row created.
      && (key !in hits && env.failing != Some(Read) && siteId !in sites ==> r == (BadRequest, hits))
      // The site read fails: nothing written.
      && (key !in hits && env.failing == Some(Read) ==> r == (InternalServerError, hits))
      // The create fails: nothing written by this call (a racer's row stays).
      && (key !in hits && env.failing == Some(Create) && siteId in sites ==>
            r == (InternalServerError, if env.racerHits > 0 then hits[key := env.racerHits] else hits))
      // First visit to a registered site with no racer: exactly one new row, count 1.
      && (key !in hits && env.racerHits == 0 && env.failing == None && siteId in sites ==>
            r == (Ok, hits[key := 1]))
      // A racer got there first: its row is kept as it is, and the call still succeeds.
      && (key !in hits && env.racerHits > 0 && env.failing == None && siteId in sites ==>
            r == (Ok, hits[key := env.racerHits]))
  {
    if Invalid(siteId, fingerprint) then (BadRequest, hits)
    else
      var key := Key(siteId, fingerprint.value);
      if env.failing == Some(Patch) then (InternalServerError, hits)
      else if key in hits then (Ok, hits[key := hits[key] + 1])
      else if env.failing == Some(Read) then (InternalServerError, hits)
      else if siteId !in sites then (BadRequest, hits)
      else
        var seen := if env.racerHits > 0 then hits[key := env.racerHits] else hits;
        if env.failing == Some(Create) then (InternalServerError, seen)
        else if key in seen then (Ok, seen)
        else (Ok, seen[key := 1])
  }

  /**
   * `Post` only ever adds the row it was asked about, never removes one,
   * and keeps the store invariant; when it answers Ok the row exists with
   * a count of at least 1.
   */
  lemma PostKeepsInvariant(sites: set<string>, hits: Table, siteId: string, fingerprint: Option<string>, env: Env)
    requires WellFormed(sites, hits)
    ensures var (res, after) := PostSpec(sites, hits, siteId, fingerprint, env);
      && WellFormed(sites, after)
      && (res == Ok ==> fingerprint.Some? && Key(siteId, fingerprint.value) in after
                        && after[Key(siteId, fingerprint.value)] >= 1)
  {
  }

  /** Only the addressed row may appear; no row disappears. */
  lemma PostAddsAtMostItsRow(sites: set<string>, hits: Table, siteId: string, fingerprint: Option<string>, env: Env)
    ensures var after := PostSpec(sites, hits, siteId, fingerprint, env).1;
      || after.Keys == hits.Keys
      || (fingerprint.Some? && Key(siteId, fingerprint.value) !in hits
          && after.Keys == hits.Keys + {Key(siteId, fingerprint.value)})
  {
  }

  /** The rows of one partition: what the query `Where(hit => hit.SiteId == siteId)` selects. */
  function Partition(hits: Table, siteId: string): set<Key> {
    set k | k in hits && k.siteId == siteId
  }

  /** The distinct fingerprints that have hit `siteId`. */
  function Visitors(hits: Table, siteId: string): set<string> {
    set k | k in hits && k.siteId == siteId :: k.id
  }

  /** The count query `Get` runs: the number of rows in the partition. */
  function CountQuery(hits: Table, siteId: string): nat {
    |Partition(hits, siteId)|
  }

  /** Pairs that share their first component are as many as their second components. */
  lemma {:induction false} SameSiteKeysCount(ks: set<Key>, siteId: string)
    requires forall k :: k in ks ==> k.siteId == siteId
    ensures |ks| == |set k | k in ks :: k.id|
  {
    if ks != {} {
      var x :| x in ks;
      var rest := ks - {x};
      SameSiteKeysCount(rest, siteId);
      var ids := set k | k in ks :: k.id;
      var restIds := set k | k in rest :: k.id;
      assert ids == restIds + {x.id};
      assert forall y :: y in rest ==> y.id != x.id;
    }
  }

  /**
   * The count is the number of distinct fingerprints that have hit the
   * site, not the sum of their hit counts.
   */
  lemma CountIsDistinctVisitors(hits: Table, siteId: string)
    ensures CountQuery(hits, siteId) == |Visitors(hits, siteId)|
  {
    SameSiteKeysCount(Partition(hits, siteId), siteId);
    assert Visitors(hits, siteId) == set k | k in Partition(hits, siteId) :: k.id;
  }

  /** A site that is not registered has no rows, so it counts 0. */
  lemma UnregisteredSiteCountsZero(sites: set<string>, hits: Table, siteId: string)
    requires WellFormed(sites, hits)
    requires siteId !in sites
    ensures CountQuery(hits, siteId) == 0
  {
    assert Partition(hits, siteId) == {};
  }

  /**
   * How one `Post` changes every site's count: a site other than the one
   * posted to keeps its count; the posted site's count rises by one when
   * the call created a new row, and otherwise stays, in particular on a
   * repeat visit.
   */
  lemma PostEffectOnCount(sites: set<string>, hits: Table, siteId: string, fingerprint: Option<string>, env: Env, s: string)
    ensures var after := PostSpec(sites, hits, siteId, fingerprint, env).1;
      && (s != siteId ==> CountQuery(after, s) == CountQuery(hits, s))
      && (fingerprint.Some? && Key(siteId, fingerprint.value) in hits ==> CountQuery(after, s) == CountQuery(hits, s))
      && (fingerprint.Some? && Key(siteId, fingerprint.value) !in hits && Key(siteId, fingerprint.value) in after ==>
            CountQuery(after, siteId) == CountQuery(hits, siteId) + 1)
      && (after.Keys == hits.Keys ==> CountQuery(after, s) == CountQuery(hits, s))
  {
    var after := PostSpec(sites, hits, siteId, fingerprint, env).1;
    PostAddsAtMostItsRow(sites, hits, siteId, fingerprint, env);
    if after.Keys == hits.Keys {
      assert Partition(after, s) == Partition(hits, s);
    } else {
      var key := Key(siteId, fingerprint.value);
      assert Partition(after, siteId) == Partition(hits, siteId) + {key};
      if s != siteId {
        assert Partition(after, s) == Partition(hits, s);
      }
    }
  }

  /** `n` sequential `Post`s of the same fingerprint to the same site, none of them disturbed. */
  function PostTimes(sites: set<string>, hits: Table, siteId: string, fingerprint: string, n: nat): Table
    decreases n
  {
    if n == 0 then hits
    else PostTimes(sites, PostSpec(sites, hits, siteId, Some(fingerprint), Quiet).1, siteId, fingerprint, n - 1)
  }

  /** No lost updates: `n` repeat visits raise the row's count by exactly `n`. */
  lemma {:induction false} RepeatedVisits(sites: set<string>, hits: Table, siteId: string, fingerprint: string, n: nat)
    requires !Invalid(siteId, Some(fingerprint))
    requires Key(siteId, fingerprint) in hits
    ensures PostTimes(sites, hits, siteId, fingerprint, n)
         == hits[Key(siteId, fingerprint) := hits[Key(siteId, fingerprint)] + n]
    decreases n
  {
    var key := Key(siteId, fingerprint);
    if n == 0 {
      assert hits[key := hits[key]] == hits;
    } else {
      var next := PostSpec(sites, hits, siteId, Some(fingerprint), Quiet).1;
      assert next == hits[key := hits[key] + 1];
      RepeatedVisits(sites, next, siteId, fingerprint, n - 1);
      assert next[key := next[key] + (n - 1)] == hits[key := hits[key] + n];
    }
  }

  /**
   * `n >= 1` visits of a new fingerprint to a registered site leave
   * exactly one new row, holding `n`.
   */
  lemma FirstAndRepeatedVisits(sites: set<string>, hits: Table, siteId: string, fingerprint: string, n: nat)
    requires !Invalid(siteId, Some(fingerprint))
    requires siteId in sites && Key(siteId, fingerprint) !in hits
    requires n >= 1
    ensures PostTimes(sites, hits, siteId, fingerprint, n) == hits[Key(siteId, fingerprint) := n]
  {
    var key := Key(siteId, fingerprint);
    var first := PostSpec(sites, hits, siteId, Some(fingerprint), Quiet).1;
    assert first == hits[key := 1];
    RepeatedVisits(sites, first, siteId, fingerprint, n - 1);
    assert first[key := first[key] + (n - 1)] == hits[key := n];
  }

  /**
   * Two concurrent first visits of the same fingerprint to a registered
   * site: both patches miss, one create wins, the other meets a conflict.
   * Both calls answer Ok and the store ends with one new row holding 1,
   * the same as after the winner alone.
   */
  lemma ConcurrentFirstVisits(sites: set<string>, hits: Table, siteId: string, fingerprint: string)
    requires !Invalid(siteId, Some(fingerprint))
    requires siteId in sites && Key(siteId, fingerprint) !in hits
    ensures var winner := PostSpec(sites, hits, siteId, Some(fingerprint), Quiet);
            var loser := PostSpec(sites, hits, siteId, Some(fingerprint), Env(1, None));
      && winner.0 == Ok && loser.0 == Ok
      && winner.1 == loser.1 == hits[Key(siteId, fingerprint) := 1]
      && CountQuery(loser.1, siteId) == CountQuery(hits, siteId) + 1
  {
    PostEffectOnCount(sites, hits, siteId, Some(fingerprint), Env(1, None), siteId);
  }

  /** The Azure Functions class: both containers, and the two HTTP functions over them. */
  class Api {
    /** The site container: ids of the registered sites. */
    var sites: set<string>
    /** The hit container. */
    var hits: Table

    ghost predicate Valid()
      reads this
    {
      WellFormed(sites, hits)
    }

    /** The containers as they stand when the function app starts. */
    constructor (sites: set<string>, hits: Table)
      ensures this.sites == sites && this.hits == hits
      ensures WellFormed(sites, hits) ==> Valid()
    {
      this.sites := sites;
      this.hits := hits;
    }

    /** `PatchItemAsync` with the single operation `Increment("/hitCount", 1)`. */
    method PatchIncrement(key: Key, fails: bool) returns (s: Status)
      modifies this
      ensures sites == old(sites)
      ensures s == Success <==> !fails && key in old(hits)
      ensures s == NotFound <==> !fails && key !in old(hits)
      ensures s == OtherFailure <==> fails
      ensures hits == if s == Success then old(hits)[key := old(hits)[key] + 1] else old(hits)
    {
      if fails {
        s := OtherFailure;
      } else if key in hits {
        hits := hits[key := hits[key] + 1];
        s := Success;
      } else {
        s := NotFound;
      }
    }

    /** `ReadItemAsync` on the site container: only whether the site exists matters. */
    method ReadSite(siteId: string, fails: bool) returns (s: Status)
      ensures s == Success <==> !fails && siteId in sites
      ensures s == NotFound <==> !fails && siteId !in sites
      ensures s == OtherFailure <==> fails
    {
      if fails {
        s := OtherFailure;
      } else if siteId in sites {
        s := Success;
      } else {
        s := NotFound;
      }
    }

    /** `CreateItemAsync`: all or nothing, and a conflict when the address is taken. */
    method CreateItem(hit: Hit, fails: bool) returns (s: Status)
      modifies this
      ensures sites == old(sites)
      ensures s == Success <==> !fails && KeyOf(hit) !in old(hits)
      ensures s == Conflict <==> !fails && KeyOf(hit) in old(hits)
      ensures s == OtherFailure <==> fails
      ensures hits == if s == Success then old(hits)[KeyOf(hit) := hit.hitCount] else old(hits)
    {
      if fails {
        s := OtherFailure;
      } else if KeyOf(hit) in hits {
        s := Conflict;
      } else {
        hits := hits[KeyOf(hit) := hit.hitCount];
        s := Success;
      }
    }

    /**
     * The concurrent writer of `Env`: another `Post` for the same row
     * whose create lands first, followed by `count - 1` increments.
     */
    method ConcurrentWriter(key: Key, count: nat)
      requires key !in hits
      modifies this
      ensures sites == old(sites)
      ensures hits == if count > 0 then old(hits)[key := count] else old(hits)
    {
      if count > 0 {
        hits := hits[key := count];
      }
    }

    /** Records one visit of `fingerprint` to `siteId`. */
    method Post(siteId: string, fingerprint: Option<string>, env: Env) returns (r: Response)
      modifies this
      ensures sites == old(sites)
      ensures (r, hits) == PostSpec(old(sites), old(hits), siteId, fingerprint, env)
      ensures old(Valid()) ==> Valid()
    {
      if old(Valid()) {
        PostKeepsInvariant(sites, hits, siteId, fingerprint, env);
      }
      if IsNullOrWhiteSpace(Some(siteId)) || IsNullOrWhiteSpace(fingerprint) {
        return BadRequest;
      }
      var fp := fingerprint.value;
      var patched := PatchIncrement(Key(siteId, fp), env.failing == Some(Patch));
      if patched == NotFound {
        var read := ReadSite(siteId, env.failing == Some(Read));
        if read == NotFound {
          return BadRequest;
        } else if read != Success {
          return InternalServerError;
        }
        ConcurrentWriter(Key(siteId, fp), env.racerHits);
        var hit := Hit(fp, siteId, 1);
        var created := CreateItem(hit, env.failing == Some(Create));
        if created != Success && created != Conflict {
          return InternalServerError;
        }
        // A conflict is logged and otherwise ignored.
      } else if patched != Success {
        return InternalServerError;
      }
      return Ok;
    }

    /** Reports the site's count: the number of distinct fingerprints that have hit it. */
    function Get(siteId: string): (r: Response)
      reads this
      ensures IsNullOrWhiteSpace(Some(siteId)) <==> r == BadRequest
      ensures !IsNullOrWhiteSpace(Some(siteId)) ==> r == HitResponse(|Visitors(hits, siteId)|)
    {
      if IsNullOrWhiteSpace(Some(siteId)) then BadRequest
      else
        CountIsDistinctVisitors(hits, siteId);
        HitResponse(CountQuery(hits, siteId))
    }
  }

  /** The table of the example below has two visitors at "s1" and none at "s2". */
  lemma ExampleVisitors(h: Table)
    requires h == map[Key("s1", "a") := 3, Key("s1", "b") := 1]
    ensures |Visitors(h, "s1")| == 2 && |Visitors(h, "s2")| == 0
  {
    assert Visitors(h, "s1") == {"a", "b"};
    assert Visitors(h, "s2") == {};
  }

  /**
   * Three visits from "a" and one from "b" to site "s1" make "s1" count 2;
   * a site nobody has hit, registered or not, counts 0.
   */
  method DistinctVisitorsExample() returns (s1: Response, s2: Response)
    ensures s1 == HitResponse(2)
    ensures s2 == HitResponse(0)
  {
    var api := new Api({"s1", "s2"}, map[]);
    assert api.Valid();
    assert "s1"[0] == 's' && "s2"[0] == 's' && "a"[0] == 'a' && "b"[0] == 'b';
    assert !Invalid("s1", Some("a")) && !Invalid("s1", Some("b"));
    var r := api.Post("s1", Some("a"), Quiet);
    assert api.hits == map[Key("s1", "a") := 1];
    r := api.Post("s1", Some("a"), Quiet);
    assert api.hits == map[Key("s1", "a") := 2];
    r := api.Post("s1", Some("b"), Quiet);
    assert api.hits == map[Key("s1", "a") := 2, Key("s1", "b") := 1];
    r := api.Post("s1", Some("a"), Quiet);
    assert api.hits == map[Key("s1", "a") := 3, Key("s1", "b") := 1];
    ExampleVisitors(api.hits);
    s1 := api.Get("s1");
    s2 := api.Get("s2");
  }
}
