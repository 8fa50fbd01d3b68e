/**
 The permission cache in front of the token exchange: answers are kept under a
 key made of the asset, the grantee and the sorted permissions
 (internal/clients/tokenexchange/cache.go).
*/
module PermissionCache {
  import opened Wrappers
  import opened Text
  import opened Signals

  datatype Request = Request(asset: string, grantee: string, permissions: seq<string>)

  function CacheKey(req: Request): string {
    req.asset + ":" + req.grantee + ":" + Join(Sort(req.permissions), ',')
  }

  /** An ERC-721 DID has four colons, an address none; permission names are non-empty and have no comma. */
  predicate WellFormed(req: Request) {
    Occurrences(':', req.asset) == 4 && ':' !in req.grantee && Plain(req.permissions, ',')
  }

  predicate SameRequest(a: Request, b: Request) {
    a.asset == b.asset && a.grantee == b.grantee && multiset(a.permissions) == multiset(b.permissions)
  }

  lemma SortedStaysPlain(parts: seq<string>, sep: char)
    requires Plain(parts, sep)
    ensures Plain(Sort(parts), sep)
  {
    SortSorts(parts);
    forall i | 0 <= i < |Sort(parts)| ensures Sort(parts)[i] != "" && sep !in Sort(parts)[i] {
      assert Sort(parts)[i] in multiset(parts);
    }
  }

  lemma Regrouped(a: string, g: string, p: string)
    ensures a + ":" + g + ":" + p == a + [':'] + (g + [':'] + p)
  {
  }

  /** Cut at the fifth and the sixth colon, a key gives back its three parts. */
  lemma ThreeParts(a1: string, g1: string, p1: string, a2: string, g2: string, p2: string)
    requires Occurrences(':', a1) == Occurrences(':', a2) && ':' !in g1 && ':' !in g2
    ensures a1 + ":" + g1 + ":" + p1 == a2 + ":" + g2 + ":" + p2 <==> a1 == a2 && g1 == g2 && p1 == p2
  {
    Regrouped(a1, g1, p1);
    Regrouped(a2, g2, p2);
    var rest1, rest2 := g1 + [':'] + p1, g2 + [':'] + p2;
    CountedSeparator(':', a1, rest1, a2, rest2);
    FirstSeparator(':', g1, p1, g2, p2);
    hide Occurrences;
  }

  /** Joined in sorted order, permissions agree exactly when they are the same multiset. */
  lemma JoinedPermissions(a: seq<string>, b: seq<string>)
    requires Plain(a, ',') && Plain(b, ',')
    ensures Join(Sort(a), ',') == Join(Sort(b), ',') <==> multiset(a) == multiset(b)
  {
    SortSorts(a);
    SortSorts(b);
    SortedStaysPlain(a, ',');
    SortedStaysPlain(b, ',');
    JoinInjective(Sort(a), Sort(b), ',');
    if multiset(a) == multiset(b) { SortedIsUnique(Sort(a), Sort(b)); }
  }

  /** Two requests share a key exactly when they ask the same: whatever the order of the permissions. */
  lemma KeyIdentifiesRequest(a: Request, b: Request)
    requires WellFormed(a) && WellFormed(b)
    ensures CacheKey(a) == CacheKey(b) <==> SameRequest(a, b)
  {
    JoinedPermissions(a.permissions, b.permissions);
    ThreeParts(a.asset, a.grantee, Join(Sort(a.permissions), ','), b.asset, b.grantee, Join(Sort(b.permissions), ','));
  }

  // ---- The permissions the service asks for ----

  lemma TranslatedIsPlain(privilege: string)
    ensures (TranslatePrivilege(privilege) != "" && ',' !in TranslatePrivilege(privilege)) <==> privilege in PRIVILEGE_MAP
  {
  }

  /** Every loaded definition can be part of a key exactly when the service knows every privilege of the schema. */
  lemma LoadedArePlain(infos: seq<SignalInfo>, defs: seq<SignalDefinition>)
    requires |defs| == |infos| && forall i :: 0 <= i < |infos| ==> Defines(defs[i], infos[i])
    ensures (forall i :: 0 <= i < |infos| ==> Plain(defs[i].permissions, ','))
            <==> (forall i, k :: 0 <= i < |infos| && 0 <= k < |infos[i].privileges| ==> infos[i].privileges[k] in PRIVILEGE_MAP)
  {
    hide TranslatePrivilege;
    forall i | 0 <= i < |infos|
      ensures Plain(defs[i].permissions, ',')
              <==> forall k :: 0 <= k < |infos[i].privileges| ==> infos[i].privileges[k] in PRIVILEGE_MAP
    {
      PermissionsArePlain(defs[i], infos[i]);
    }
  }

  lemma PermissionsArePlain(def: SignalDefinition, info: SignalInfo)
    requires Defines(def, info)
    ensures Plain(def.permissions, ',') <==> forall k :: 0 <= k < |info.privileges| ==> info.privileges[k] in PRIVILEGE_MAP
  {
    hide TranslatePrivilege, PRIVILEGE_MAP;
    forall k | 0 <= k < |info.privileges|
      ensures (def.permissions[k] != "" && ',' !in def.permissions[k]) <==> info.privileges[k] in PRIVILEGE_MAP
    {
      TranslatedIsPlain(info.privileges[k]);
    }
  }

  /** Then so are the permissions of every request, at subscription and at delivery, default ones included. */
  lemma RequestsArePlain(schema: Schema, defs: seq<SignalDefinition>, isSignal: bool, metricName: string, sig: Signal)
    requires forall n :: n in schema ==> schema[n] in defs
    requires forall i :: 0 <= i < |defs| ==> Plain(defs[i].permissions, ',')
    ensures Plain(SubscribePermissions(schema, isSignal, metricName), ',')
    ensures Plain(DeliveryDefinition(schema, sig).permissions, ',')
  {
    assert Plain(DEFAULT_PERMISSIONS, ',');
    hide Plain;
  }

  /** expiresAt 0 means never. */
  datatype Entry = Entry(granted: bool, expiresAt: int)

  /** An answer the token exchange gave, and when it was stored. */
  datatype Answer = Answer(req: Request, granted: bool, at: int)

  /** The last answer given under this key. */
  ghost predicate LastUnder(answers: seq<Answer>, i: int, key: string) {
    && 0 <= i < |answers| && CacheKey(answers[i].req) == key
    && forall j :: i < j < |answers| ==> CacheKey(answers[j].req) != key
  }

  /** The last answer given to a request that asks the same. */
  ghost predicate LastTo(answers: seq<Answer>, i: int, req: Request) {
    && 0 <= i < |answers| && SameRequest(answers[i].req, req)
    && forall j :: i < j < |answers| ==> !SameRequest(answers[j].req, req)
  }

  lemma LastByKey(answers: seq<Answer>, i: int, req: Request)
    requires WellFormed(req) && forall j :: 0 <= j < |answers| ==> WellFormed(answers[j].req)
    ensures LastUnder(answers, i, CacheKey(req)) <==> LastTo(answers, i, req)
  {
    hide WellFormed, CacheKey, SameRequest;
    forall j | 0 <= j < |answers| ensures CacheKey(answers[j].req) == CacheKey(req) <==> SameRequest(answers[j].req, req) {
      KeyIdentifiesRequest(answers[j].req, req);
    }
  }

  /** A positive expiration counts from the moment of storing, the last instant included; any other never ends. */
  predicate Fresh(expiration: int, at: int, now: int) {
    expiration > 0 && at + expiration > 0 ==> now <= at + expiration
  }

  /** The last answer under the key, or to the request, is this one and still fresh. */
  ghost predicate Remembered(answers: seq<Answer>, expiration: int, key: string, now: int, granted: bool) {
    exists i :: LastUnder(answers, i, key) && Fresh(expiration, answers[i].at, now) && answers[i].granted == granted
  }

  ghost predicate Answered(answers: seq<Answer>, expiration: int, req: Request, now: int, granted: bool) {
    exists i :: LastTo(answers, i, req) && Fresh(expiration, answers[i].at, now) && answers[i].granted == granted
  }

  /** What the cache remembers under its keys is what was last answered, request by request. */
  lemma RemembersAnswers(answers: seq<Answer>, expiration: int, req: Request, now: int, granted: bool)
    requires WellFormed(req) && forall j :: 0 <= j < |answers| ==> WellFormed(answers[j].req)
    ensures Remembered(answers, expiration, CacheKey(req), now, granted) <==> Answered(answers, expiration, req, now, granted)
  {
    forall i { LastByKey(answers, i, req); }
    hide LastUnder, LastTo, CacheKey, Fresh;
  }

  class Cache {
    var entries: map<string, Entry>
    const expiration: int
    ghost var answers: seq<Answer>

    /** The entries are the last answers of the token exchange, key by key. */
    ghost predicate Valid()
      reads this
    {
      && (forall k :: k in entries ==> exists i :: LastUnder(answers, i, k) && Backs(answers[i], entries[k]))
      && (forall i :: 0 <= i < |answers| ==> CacheKey(answers[i].req) in entries)
    }

    ghost predicate Backs(a: Answer, e: Entry) { a.granted == e.granted && e.expiresAt == Expiry(a.at) }

    function Expiry(storedAt: int): int { if expiration > 0 then storedAt + expiration else 0 }

    predicate Hit(key: string, now: int)
      reads this
    {
      key in entries && (entries[key].expiresAt <= 0 || now <= entries[key].expiresAt)
    }

    /** A lookup hits exactly when the last answer under the key is still fresh, and finds that answer. */
    lemma HitsExactly(key: string, now: int, granted: bool)
      requires Valid()
      ensures Hit(key, now) && entries[key].granted == granted <==> Remembered(answers, expiration, key, now, granted)
    {
      if key in entries {
        var i :| LastUnder(answers, i, key) && Backs(answers[i], entries[key]);
        assert forall j :: LastUnder(answers, j, key) ==> j == i;
        hide CacheKey, LastUnder;
      }
    }

    constructor (defaultExpiration: int)
      ensures Valid() && entries == map[] && answers == []
    {
      entries := map[];
      expiration := defaultExpiration;
      answers := [];
    }

    /** Sorts the caller's slice, as building the key does. */
    method SortInPlace(permissions: array<string>)
      modifies permissions
      ensures permissions[..] == Sort(old(permissions[..]))
    {
      ghost var before := permissions[..];
      var sorted := Sort(permissions[..]);
      SortSorts(before);
      assert |multiset(sorted)| == |sorted| && |multiset(before)| == |before|;
      forall i | 0 <= i < permissions.Length {
        permissions[i] := sorted[i];
      }
    }

    /** A stored answer is the last under its key, and the only one whose place changes. */
    lemma StoringKeeps(before: seq<Answer>, were: map<string, Entry>, answer: Answer, entry: Entry)
      requires forall k :: k in were ==> exists i :: LastUnder(before, i, k) && Backs(before[i], were[k])
      requires forall i :: 0 <= i < |before| ==> CacheKey(before[i].req) in were
      requires Backs(answer, entry) && answers == before + [answer] && entries == were[CacheKey(answer.req) := entry]
      ensures Valid()
    {
      hide CacheKey, Backs;
      forall k | k in entries ensures exists i :: LastUnder(answers, i, k) && Backs(answers[i], entries[k]) {
        if k == CacheKey(answer.req) {
          assert LastUnder(answers, |before|, k);
        } else {
          var i :| LastUnder(before, i, k) && Backs(before[i], were[k]);
          assert LastUnder(answers, i, k);
        }
      }
    }

    /** The lookup finds exactly a last answer that is still fresh. */
    method Get(key: string, now: int) returns (found: Option<bool>)
      requires Valid()
      ensures forall granted :: found == Some(granted) <==> Remembered(answers, expiration, key, now, granted)
    {
      forall granted { HitsExactly(key, now, granted); }
      hide Remembered;
      found := if Hit(key, now) then Some(entries[key].granted) else None;
    }

    method Set(key: string, granted: bool, storedAt: int, ghost req: Request)
      requires Valid() && key == CacheKey(req)
      modifies this
      ensures Valid() && answers == old(answers) + [Answer(req, granted, storedAt)]
    {
      ghost var before, known, answer := answers, entries, Answer(req, granted, storedAt);
      var entry := Entry(granted, Expiry(storedAt));
      entries := entries[key := entry];
      answers := answers + [answer];
      StoringKeeps(before, known, answer, entry);
    }

    /**
     `upstream` is what the token exchange would answer. When the last answer to
     the request is still fresh it is given again and nothing changes; otherwise
     the token exchange decides, its answer is stored, and an error never is.
    */
    method HasVehiclePermissions(asset: string, grantee: string, permissions: array<string>, now: int, storedAt: int,
                                 upstream: Result<bool, ()>)
      returns (r: Result<bool, ()>)
      requires Valid()
      modifies this, permissions
      ensures Valid()
      ensures permissions[..] == Sort(old(permissions[..]))
      ensures var key := CacheKey(Request(asset, grantee, old(permissions[..])));
              forall granted :: Remembered(old(answers), expiration, key, now, granted) ==>
                r == Ok(granted) && answers == old(answers) && entries == old(entries)
      ensures var req := Request(asset, grantee, old(permissions[..]));
              (forall granted :: !Remembered(old(answers), expiration, CacheKey(req), now, granted)) ==>
                && r == upstream
                && (r.Err? ==> answers == old(answers) && entries == old(entries))
                && (r.Ok? ==> answers == old(answers) + [Answer(req, r.value, storedAt)])
    {
      ghost var req := Request(asset, grantee, permissions[..]);
      SortInPlace(permissions);
      var key := asset + ":" + grantee + ":" + Join(permissions[..], ',');
      assert key == CacheKey(req);
      hide Remembered, CacheKey, Join, Sort;
      var found := Get(key, now);
      if found.Some? {
        assert Remembered(old(answers), expiration, CacheKey(req), now, found.value);
        return Ok(found.value);
      }
      if upstream.Err? { return upstream; }
      Set(key, upstream.value, storedAt, req);
      r := Ok(upstream.value);
    }
  }
}
