/** The exported operation: fetch (or recall) the sponsorships, keep one tier's
    active ones and render them, delivering text or an error. */
module Sponsors {
  import opened Common
  import opened Tiers
  import opened Sponsorships
  import opened Render
  import opened Gql

  /** The one query ever sent; its text is only a cache key here. */
  const SponsorsQuery: string :=
    "query { viewer { login sponsorshipsAsMaintainer(activeOnly: false, includePrivate: true, first: 100) { nodes } } }"

  /** What the callback receives for tier key `key` once the response data is `data`. */
  function Deliver(key: string, data: Data, rewriteAvatar: AvatarRewrite): (r: Result<string, Error>)
    ensures data.None? ==> r == Failure(MissingViewer)
  {
    match data
    case None => Failure(MissingViewer)
    case Some(viewer) =>
      match Filter(key, viewer.sponsorships)
      case Failure(e) => Failure(e)
      case Success(list) => FormatList(list, rewriteAvatar)
  }

  /** For a known tier, the text delivered is the rendering of exactly the active
      sponsorships of that tier, and fails only on an avatar URL that does not parse. */
  lemma DeliverKnownTier(key: string, name: TierName, viewer: Viewer, rewriteAvatar: AvatarRewrite)
    requires RuleNamed(key) == Some(name)
    ensures Filter(key, viewer.sponsorships).Success?
    ensures var list := Filter(key, viewer.sponsorships).value;
      (forall s :: s in list <==> s in viewer.sponsorships && Selected(name, s))
      && Deliver(key, Some(viewer), rewriteAvatar) == FormatList(list, rewriteAvatar)
      && (Deliver(key, Some(viewer), rewriteAvatar).Success? <==> AvatarsParse(list, rewriteAvatar))
  {
    FilterKnownTier(key, name, viewer.sponsorships);
  }

  /** For a key that names no rule, the delivery is the unknown-tier error when some
      sponsorship is active, and the empty text otherwise. */
  lemma DeliverUnknownTier(key: string, viewer: Viewer, rewriteAvatar: AvatarRewrite)
    requires RuleNamed(key).None?
    ensures (exists i :: 0 <= i < |viewer.sponsorships| && viewer.sponsorships[i].isActive) ==>
      Deliver(key, Some(viewer), rewriteAvatar) == Failure(UnknownTier(key))
    ensures (forall i :: 0 <= i < |viewer.sponsorships| ==> !viewer.sponsorships[i].isActive) ==>
      Deliver(key, Some(viewer), rewriteAvatar) == Success("")
  {
    FilterUnknownTier(key, viewer.sponsorships);
  }

  /** A monthly sponsorship of 500 cents by "alice", who has no display name, is a
      supporter and renders as one line: the login as name, the size-32 avatar and
      a link to the profile. */
  lemma SupporterExample(rewriteAvatar: AvatarRewrite)
    requires rewriteAvatar("https://x/y?size=10") == Some("https://x/y?size=10&s=32")
    ensures var alice := Sponsorship(true, Tier(false, 500), User("alice", None, "https://x/y?size=10"));
      Deliver("supporter", Some(Viewer("me", [alice])), rewriteAvatar)
        == Success("[![" + "alice" + "](" + "https://x/y?size=10&s=32" + " \"" + "alice"
                   + "\")](https://github.com/" + "alice" + ")")
  {
  }

  /** The exported entry point: the cached data for the sponsorship query, fetched
      with outcome `response` when absent, then filtered for `key` and rendered.
      A failed request's error is delivered as it is. */
  method GetSponsors(cache: QueryCache, key: string, response: Result<Data, Error>, rewriteAvatar: AvatarRewrite)
    returns (r: Result<string, Error>)
    requires cache.Valid()
    modifies cache
    ensures cache.Valid()
    ensures SponsorsQuery in old(cache.entries) ==>
      r == Deliver(key, old(cache.entries)[SponsorsQuery], rewriteAvatar)
      && cache.entries == old(cache.entries) && cache.fetches == old(cache.fetches)
    ensures SponsorsQuery !in old(cache.entries) ==>
      cache.fetches == old(cache.fetches) + 1
      && cache.entries == (if response.Success? then old(cache.entries)[SponsorsQuery := response.value]
                           else old(cache.entries))
      && r == match response
              case Failure(e) => Failure(e)
              case Success(data) => Deliver(key, data, rewriteAvatar)
  {
    var data := cache.Query(SponsorsQuery, response);
    match data
    case Failure(e) =>
      r := Failure(e);
    case Success(d) =>
      r := Deliver(key, d, rewriteAvatar);
  }

  /** Asking for two tiers in turn, as a caller rendering several tiers does: once
      the first request has succeeded, the second call is answered from the cache,
      so at most one request is sent, and both tiers are rendered from the same data. */
  method GetTwoTiers(cache: QueryCache, first: string, second: string,
                     response1: Result<Data, Error>, response2: Result<Data, Error>, rewriteAvatar: AvatarRewrite)
    returns (r1: Result<string, Error>, r2: Result<string, Error>)
    requires cache.Valid()
    modifies cache
    ensures cache.Valid()
    ensures (SponsorsQuery in old(cache.entries) || response1.Success?) ==>
      cache.fetches <= old(cache.fetches) + 1
      && SponsorsQuery in cache.entries
      && r1 == Deliver(first, cache.entries[SponsorsQuery], rewriteAvatar)
      && r2 == Deliver(second, cache.entries[SponsorsQuery], rewriteAvatar)
  {
    r1 := GetSponsors(cache, first, response1, rewriteAvatar);
    r2 := GetSponsors(cache, second, response2, rewriteAvatar);
  }
}
