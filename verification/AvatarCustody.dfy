/** Agent avatars live in two places: the asset table and the reference in the agent's session. Every
    operation changes both together or neither, so the reference always names the current asset. */
module AvatarCustody {
  import opened Wrappers

  datatype AssetId = AssetId(name: string)
  datatype SessionId = SessionId(name: string)

  const PENDING_TTL_SECONDS := 900

  datatype Custody = Pending(expiresAt: int) | Current
  datatype Asset = Asset(session: SessionId, custody: Custody, size: nat)

  /** An avatar reference: none, one that names an owned asset, or any other text. */
  datatype Reference = NoAvatar | Owned(id: AssetId) | Foreign(url: string)

  datatype Failure =
    | SessionMissing | StorageExhausted | Duplicate | AssetMissing | InvalidCustody | BadRequest | Refused

  type Outcome<+T> = Result<T, Failure>

  predicate IsPendingOf(a: Asset, s: SessionId) { a.session == s && a.custody.Pending? }
  predicate IsCurrentOf(a: Asset, s: SessionId) { a.session == s && a.custody.Current? }

  function OwnedId(r: Reference): Option<AssetId> { if r.Owned? then Some(r.id) else None }

  /** At most one pending upload per session, and the current asset of a session is exactly the one its
      reference names. */
  ghost predicate InCustody(assets: map<AssetId, Asset>, references: map<SessionId, Reference>) {
    && (forall i | i in assets :: assets[i].session in references)
    && (forall i, j | i in assets && j in assets && assets[i].session == assets[j].session &&
          assets[i].custody.Pending? && assets[j].custody.Pending? :: i == j)
    && (forall s | s in references :: !references[s].Foreign?)
    && (forall s | s in references && references[s].Owned? ::
          references[s].id in assets && IsCurrentOf(assets[references[s].id], s))
    && (forall i | i in assets && assets[i].custody.Current? ::
          assets[i].session in references && references[assets[i].session] == Owned(i))
  }

  /** So no session ever has two current avatars. */
  lemma OneCurrentAvatar(assets: map<AssetId, Asset>, references: map<SessionId, Reference>, i: AssetId, j: AssetId)
    requires InCustody(assets, references) && i in assets && j in assets
    requires assets[i].custody.Current? && assets[j].custody.Current? && assets[i].session == assets[j].session
    ensures i == j
  {
    assert references[assets[i].session] == Owned(i) && references[assets[j].session] == Owned(j);
  }

  function Unexpired(assets: map<AssetId, Asset>, now: int): map<AssetId, Asset> {
    map i | i in assets && !(assets[i].custody.Pending? && assets[i].custody.expiresAt <= now) :: assets[i]
  }

  function PendingIds(assets: map<AssetId, Asset>, s: SessionId): set<AssetId> {
    set i | i in assets && IsPendingOf(assets[i], s)
  }

  function CurrentIds(assets: map<AssetId, Asset>, s: SessionId): set<AssetId> {
    set i | i in assets && IsCurrentOf(assets[i], s)
  }

  lemma CustodyIds(assets: map<AssetId, Asset>, references: map<SessionId, Reference>, s: SessionId)
    requires InCustody(assets, references) && s in references
    ensures |PendingIds(assets, s)| <= 1
    ensures CurrentIds(assets, s) == if references[s].Owned? then {references[s].id} else {}
  {
    var pending := PendingIds(assets, s);
    if pending != {} {
      var i :| i in pending;
      assert pending == {i};
    }
  }

  /** The assets once `next` is the reference of `s`: its current one goes, the one it names becomes current. */
  function Replaced(assets: map<AssetId, Asset>, s: SessionId, previous: Option<AssetId>, wanted: Option<AssetId>)
    : map<AssetId, Asset>
    requires wanted.Some? ==> wanted.value in assets && wanted != previous
  {
    var table := if previous.Some? then assets - {previous.value} else assets;
    if wanted.Some? then table[wanted.value := assets[wanted.value].(custody := Current)] else table
  }

  lemma ReplacedInCustody(assets: map<AssetId, Asset>, references: map<SessionId, Reference>, s: SessionId,
                          next: Reference)
    requires InCustody(assets, references) && s in references && !next.Foreign?
    requires next.Owned? ==> next.id in assets && IsPendingOf(assets[next.id], s)
    ensures next.Owned? ==> OwnedId(references[s]) != OwnedId(next)
    ensures InCustody(Replaced(assets, s, OwnedId(references[s]), OwnedId(next)), references[s := next])
  {
  }

  lemma NotForeign(assets: map<AssetId, Asset>, references: map<SessionId, Reference>, s: SessionId)
    requires InCustody(assets, references) && s in references
    ensures !references[s].Foreign?
  {
  }

  class Store {
    var assets: map<AssetId, Asset>
    var references: map<SessionId, Reference>

    ghost predicate Valid()
      reads this
    {
      InCustody(assets, references)
    }

    constructor ()
      ensures Valid() && assets == map[] && references == map[]
    {
      assets, references := map[], map[];
    }

    /** A new agent starts without an avatar; a known one is left alone. */
    method AddSession(s: SessionId)
      requires Valid()
      modifies `references
      ensures Valid() && references == if s in old(references) then old(references) else old(references)[s := NoAvatar]
    {
      if s !in references {
        references := references[s := NoAvatar];
      }
    }

    /** An upload replaces the session's pending one; expired uploads of anyone are swept out first. */
    method StoreAvatar(s: SessionId, id: AssetId, size: nat, now: int, fits: bool) returns (r: Outcome<AssetId>)
      requires Valid()
      modifies `assets
      ensures Valid()
      ensures r.Err? ==> assets == old(assets)
      ensures r.Ok? <==> old(s in references && fits &&
        id !in Unexpired(assets, now) - PendingIds(Unexpired(assets, now), s))
      ensures r.Ok? ==> r.value == id
      ensures r.Ok? ==>
        (var swept := Unexpired(old(assets), now);
         assets == (swept - PendingIds(swept, s))[id := Asset(s, Pending(now + PENDING_TTL_SECONDS), size)])
      ensures r.Ok? ==> forall i | i != id ::
        (i in assets <==>
           && i in old(assets)
           && (old(assets[i]).custody.Current? ||
               (old(assets[i]).session != s && now < old(assets[i]).custody.expiresAt))) &&
        (i in assets ==> assets[i] == old(assets[i]))
    {
      if s !in references {
        return Err(SessionMissing);
      }
      var table := Unexpired(assets, now);
      var previous := PendingIds(table, s);
      if !fits {
        return Err(StorageExhausted);
      }
      table := table - previous;
      if id in table {
        return Err(Duplicate);
      }
      table := table[id := Asset(s, Pending(now + PENDING_TTL_SECONDS), size)];
      assets := table;
      return Ok(id);
    }

    /** Only a current avatar can be read, and its custody is never found wanting. */
    method ReadAvatar(id: AssetId) returns (r: Outcome<Asset>)
      requires Valid()
      ensures r == if id in assets && assets[id].custody.Current? then Ok(assets[id]) else Err(AssetMissing)
    {
      if id !in assets || !assets[id].custody.Current? {
        return Err(AssetMissing);
      }
      var asset := assets[id];
      if asset.session !in references {
        return Err(SessionMissing);
      }
      if OwnedId(references[asset.session]) != Some(id) {
        return Err(InvalidCustody);
      }
      return Ok(asset);
    }

    /** The asset side of a new reference: the old current asset goes, a live pending one takes its place. */
    method ReplaceAvatar(s: SessionId, next: Reference, now: int) returns (r: Outcome<map<AssetId, Asset>>)
      requires Valid() && s in references
      ensures r.Ok? <==> (next.NoAvatar? || next == references[s] ||
        (next.Owned? && next.id in assets && IsPendingOf(assets[next.id], s) &&
          assets[next.id].custody.expiresAt > now))
      ensures r.Ok? ==> InCustody(r.value, references[s := next])
      ensures r.Err? ==> r.failure == if next.Foreign? then BadRequest else AssetMissing
      ensures r.Ok? ==> forall i | i in assets && assets[i].session != s :: i in r.value && r.value[i] == assets[i]
      ensures r.Ok? ==> r.value.Keys == assets.Keys - (if next == references[s] then {} else CurrentIds(assets, s))
    {
      hide InCustody;
      NotForeign(assets, references, s);
      if references[s].Foreign? {
        return Err(InvalidCustody);
      }
      if next.Foreign? {
        return Err(BadRequest);
      }
      CustodyIds(assets, references, s);
      var previous, wanted := OwnedId(references[s]), OwnedId(next);
      var current := CurrentIds(assets, s);
      if current != (if previous.Some? then {previous.value} else {}) {
        return Err(InvalidCustody);
      }
      if previous == wanted {
        assert references[s := next] == references;
        return Ok(assets);
      }
      var table := assets;
      if previous.Some? {
        table := table - {previous.value};
      }
      if wanted.Some? {
        var id := wanted.value;
        if id !in table || !IsPendingOf(table[id], s) || table[id].custody.expiresAt <= now {
          return Err(AssetMissing);
        }
        table := table[id := table[id].(custody := Current)];
      }
      ReplacedInCustody(assets, references, s, next);
      return Ok(table);
    }

    /** A profile update swaps the asset and the session's reference together; a later refusal undoes both. */
    method UpdateProfile(s: SessionId, avatar: Option<Reference>, now: int, accepted: bool) returns (r: Outcome<()>)
      requires Valid()
      modifies this
      ensures Valid()
      ensures r.Err? ==> assets == old(assets) && references == old(references)
      ensures r.Err? ==> r.failure != InvalidCustody
      ensures r.Ok? <==> old(s in references && accepted &&
        (avatar.None? || avatar.value.NoAvatar? || avatar.value == references[s] ||
         (avatar.value.Owned? && avatar.value.id in assets && IsPendingOf(assets[avatar.value.id], s) &&
          assets[avatar.value.id].custody.expiresAt > now)))
      ensures r.Ok? ==>
        (s in old(references) &&
         references == old(references)[s := if avatar.Some? then avatar.value else old(references[s])])
      ensures r.Ok? && avatar.None? ==> assets == old(assets)
      ensures r.Ok? ==>
        forall i | i in old(assets) && old(assets[i]).session != s :: i in assets && assets[i] == old(assets[i])
      ensures r.Ok? && avatar.Some? ==>
        CurrentIds(assets, s) == if avatar.value.Owned? then {avatar.value.id} else {}
    {
      if s !in references {
        return Err(SessionMissing);
      }
      var table, next := assets, references[s];
      if avatar.Some? {
        var replaced := ReplaceAvatar(s, avatar.value, now);
        if replaced.Err? {
          return Err(replaced.failure);
        }
        table, next := replaced.value, avatar.value;
      }
      if !accepted {
        return Err(Refused);
      }
      assert references[s := references[s]] == references;
      CustodyIds(table, references[s := next], s);
      assets := table;
      references := references[s := next];
      return Ok(());
    }
  }
}
