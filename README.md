# Sponsor tiers, query cache and sponsor list rendering

A Dafny model of `src/helpers/sponsors.js`, the helper that fetches a maintainer's
GitHub sponsorships with one GraphQL query, keeps the active sponsorships of one
pricing tier and renders them as markdown image links, one per line.

The model follows the three components of that file:

- **Tier classifier** (`tiers.dfy`, module `Tiers`): the table of nine rules. The
  eight named rules are inclusive price ranges in cents (`WithinRange`), four of them
  also restricted to monthly or one-time tiers; `other` is the negation of "some
  other key's rule matches", computed, as in the source, by filtering `other` out of
  the table's keys and asking whether any remaining rule matches. The lemmas prove
  that the named rules are pairwise disjoint, that `other` holds exactly when none of
  them does, so that every tier satisfies exactly one of the nine rules, and that
  `other` holds exactly for prices below 100 or above 1,200,000.
- **Sponsorship filter** (`sponsorships.dfy`, module `Sponsorships`): the
  fetched records and `Filter`, the filter by activity and tier rule, with the
  lookup of the rule by its key.
- **Query executor** (`gql.dfy`, module `Gql`): `QueryCache`, a class holding
  the map from query text to response data and a count of the requests sent.
- **Renderer** (`render.dfy`, module `Render`): one line per sponsor, joined by
  newlines; `SplitLines` reads a rendered text back as its lines.
- **Entry point** (`sponsors.dfy`, module `Sponsors`): the exported function, as a
  method that queries the cache and delivers the rendered text or an error.
  `common.dfy` holds `Option`, `Result` and the error kinds.

The network request is not part of the model: `QueryCache.Query` takes the outcome
the request would have (`response`) as a parameter and reads it only when the query
is not cached. Rewriting the avatar URL's size parameter is a function parameter
`rewriteAvatar` that gives no value when the URL does not parse.

Where a description of this system and the code disagree, the model follows the code:

- Bronze, silver, gold and platinum test only the price. A monthly tier of 15000
  cents is therefore `bronze`, not `other` (`Tiers.BoundaryTiers`), and `other`
  covers exactly the prices outside [100, 1200000] (`Tiers.OtherIffOutOfRange`).
- The rule is looked up only after a sponsorship has been found active
  (`sponsorship.isActive && tiers[tier].isMatch(...)` short-circuits). A key that
  names no rule is therefore an error only when at least one fetched sponsorship is
  active. Otherwise the result is the empty list and the empty text
  (`Sponsorships.FilterUnknownTier`, `Sponsors.DeliverUnknownTier`).
- A response whose data payload has no viewer is cached like any other. Every
  later call then fails from the cache with no new request (`Gql.QueryCache.Query`
  with `Data = Option<Viewer>`, `Sponsors.Deliver`).

## Model

| member | source | states |
|---|---|---|
| `Tiers.Key` | src/helpers/sponsors.js:66-94 | the nine keys of the table; `RuleNamed` finds each one's rule and nothing for any other text |
| `Tiers.Matches` | src/helpers/sponsors.js:66-94 | the nine rules of the table; the lemmas below prove the eight named ones disjoint, `other` their complement, and `other` exactly the prices outside [100, 1200000] |
| `Tiers.AnyMatches` | src/helpers/sponsors.js:92 | the `some` over the named keys; `AnyMatchesSome` proves it holds exactly when the rule of a listed key matches |
| `Tiers.RuleNamed` | src/helpers/sponsors.js:66-94 | looking a key up in the table finds the rule stored under exactly that key, and finds nothing when no rule has that key |
| `Tiers.WithinRangeInclusive` | src/helpers/sponsors.js:64 | both bounds of a range are inside it and the values just outside are not |
| `Tiers.Without` | src/helpers/sponsors.js:92 | filtering `other` out of the keys leaves exactly the other keys |
| `Tiers.WithoutKeepsOrder` | src/helpers/sponsors.js:92 | the kept keys are an order-preserving subsequence of the key list |
| `Tiers.AnyMatchesSome` | src/helpers/sponsors.js:92 | `some` over a list of keys holds exactly when the rule of one of those keys matches |
| `Tiers.EveryKeyListed` | src/helpers/sponsors.js:66-94 | every rule name is one of the table's keys |
| `Tiers.NamedRuleExcludesOther` | src/helpers/sponsors.js:91-93 | a tier matched by a named rule is not `other` |
| `Tiers.NoNamedRuleGivesOther` | src/helpers/sponsors.js:91-93 | a tier matched by no named rule is `other` |
| `Tiers.OtherFailsOnlyByNamedRule` | src/helpers/sponsors.js:91-93 | a tier that is not `other` is matched by some named rule |
| `Tiers.OtherIffNoNamedRule` | src/helpers/sponsors.js:91-93 | `other` matches a tier exactly when none of the eight named rules does |
| `Tiers.NamedRulesDisjoint` | src/helpers/sponsors.js:67-90 | no tier matches two different named rules |
| `Tiers.ExactlyOneRule` | src/helpers/sponsors.js:66-94 | every tier matches one of the nine rules and no tier matches two |
| `Tiers.OtherIffOutOfRange` | src/helpers/sponsors.js:64-93 | `other` matches exactly the prices below 100 or above 1200000, monthly or one-time |
| `Tiers.BoundaryTiers` | src/helpers/sponsors.js:68-80 | monthly 4999 is supporter and 5000 top_supporter; one-time 2499 is shoutout and 2500 shoutout_link; 15000 is bronze and not other for both payment kinds |
| `Sponsorships.Selected` | src/helpers/sponsors.js:100 | the filter's test, active and matching the rule; `FilterKnownTier` and `FilterSingle` prove the filter keeps exactly the nodes passing it |
| `Sponsorships.Filter` | src/helpers/sponsors.js:100 | the filter fails only with the unknown key it was given and never for a key in the table, and its result is an order-preserving subsequence of the fetched nodes |
| `Sponsorships.FilterKnownTier` | src/helpers/sponsors.js:96-101 | for a key in the table the filter succeeds and keeps exactly the active nodes whose tier matches the rule |
| `Sponsorships.FilterUnknownTier` | src/helpers/sponsors.js:100 | for a key not in the table the filter fails exactly when some node is active, and otherwise gives no nodes |
| `Sponsorships.FilterSingle` | src/helpers/sponsors.js:100 | a single node is kept exactly when it is active and matches the rule |
| `Sponsorships.FilterAppend` | src/helpers/sponsors.js:100 | filtering a concatenation is the concatenation of the filtered parts, so the original order is kept |
| `Sponsorships.FilterIdempotent` | src/helpers/sponsors.js:100 | filtering a filtered list again for the same tier changes nothing |
| `Render.DisplayName` | src/helpers/sponsors.js:104 | the name shown is the sponsor's name, and the login only when the name is absent |
| `Render.Line` | src/helpers/sponsors.js:107 | the template; `LineLinksToProfile` proves it opens with the display name's image link and closes with the profile link, `LineIsSingle` that it adds no newline |
| `Render.FormatItem` | src/helpers/sponsors.js:103-108 | one sponsorship's line or the unparsable avatar URL's error; `FormatItems` and `FirstInvalidAvatarReported` state its use by the mapping |
| `Render.JoinLines` | src/helpers/sponsors.js:110 | `join('\n')`; `SplitJoin` proves that cutting the joined text at its newlines gives the lines back |
| `Render.FormatItems` | src/helpers/sponsors.js:103-110 | mapping the items succeeds exactly when every avatar URL parses, and then gives one line per item, in order, each that item's formatted line |
| `Render.FirstInvalidAvatarReported` | src/helpers/sponsors.js:105-110 | a failed mapping reports the first avatar URL, in list order, that does not parse |
| `Render.FormatList` | src/helpers/sponsors.js:110 | the empty list renders as the empty text; rendering succeeds exactly when every avatar URL parses |
| `Render.SplitLines` | src/helpers/sponsors.js:110 | cutting a text at its newlines gives at least one line |
| `Render.LineLinksToProfile` | src/helpers/sponsors.js:107 | a line starts with the image link showing the display name and ends with the link to `https://github.com/<login>` |
| `Render.LineIsSingle` | src/helpers/sponsors.js:107 | a line holds no newline when the name, login and avatar URL hold none |
| `Render.SplitSingle` | src/helpers/sponsors.js:110 | a text without a newline reads back as one line |
| `Render.SplitFirstLine` | src/helpers/sponsors.js:110 | a newline after a first line separates that line from the rest |
| `Render.SplitJoin` | src/helpers/sponsors.js:110 | joining lines with newlines and cutting the text at its newlines gives the lines back |
| `Render.LastLineEndsLink` | src/helpers/sponsors.js:107-110 | a joined text of formatted lines ends with the closing parenthesis of the last link, not a newline |
| `Render.RenderedLines` | src/helpers/sponsors.js:103-110 | a rendered list of N sponsorships reads back as exactly N lines, the i-th being the i-th sponsorship's line, with no trailing newline |
| `Gql.QueryCache.constructor` | src/helpers/sponsors.js:6 | the cache starts empty with no request sent |
| `Gql.QueryCache.Query` | src/helpers/sponsors.js:8-14 | a cached query is answered from the cache with no request; an absent one sends exactly one request and stores its data if it succeeds; entries are never replaced or removed |
| `Gql.QueryTwice` | src/helpers/sponsors.js:8-14 | once the first call succeeds, asking again for the same query sends no further request and gives the same data; a query already cached sends none at all |
| `Sponsors.Deliver` | src/helpers/sponsors.js:96-116 | a response whose data holds no viewer is delivered as an error |
| `Sponsors.DeliverKnownTier` | src/helpers/sponsors.js:96-116 | for a key in the table the delivered text renders exactly the active sponsorships of that tier, and fails only on an avatar URL that does not parse |
| `Sponsors.DeliverUnknownTier` | src/helpers/sponsors.js:96-116 | for a key not in the table the delivery is the unknown-tier error if any sponsorship is active, and the empty text otherwise |
| `Sponsors.SupporterExample` | src/helpers/sponsors.js:67-110 | an active monthly 500-cent sponsorship by `alice` with no name renders as the supporter line linking to `https://github.com/alice` with the size-32 avatar |
| `Sponsors.GetSponsors` | src/helpers/sponsors.js:96-116 | the exported call delivers the rendering of the cached data, fetching it with one request only when absent and storing a successful response, and passes a failed request's error on unchanged |
| `Sponsors.GetTwoTiers` | src/helpers/sponsors.js:8-14 | two calls for two tiers send at most one request once the first has data, and both render the same cached data |

## Left out

- The GitHub client, the `/graphql` POST and the token read from the environment (src/helpers/sponsors.js:2-4, 10): network I/O through a library outside this model. The request's outcome is the `response` parameter.
- The query text (src/helpers/sponsors.js:16-62): only its use as a cache key matters, so `SponsorsQuery` is an abbreviated constant.
- Avatar URL parsing and setting its `s` parameter to 32 (src/helpers/sponsors.js:105-106): behaviour of the URL library, modelled as the uninterpreted `rewriteAvatar` whose only visible failure is a URL that does not parse.
- Promise and callback plumbing (src/helpers/sponsors.js:112-116): the callback's `(error, text)` pair is the returned `Result`. No asynchrony, no interleaving of concurrent calls and no requests in flight are modelled.
- The commented-out debug loop (src/helpers/sponsors.js:118-127) and the fetched fields that are never read (identifiers, email, timestamps, privacy level, custom-amount flag, descriptions).
- JavaScript `null` and truthiness: `isActive` and `isOneTime` are booleans, and a sponsor's `name` is either present or absent. The default `name = login` applies only to an absent name; a `null` name, which the source would render as the text `null`, is not represented.
- Keys inherited by the rule table from JavaScript objects (such as `toString`): in the source their lookup finds no `isMatch` and the call fails. The model reports the same failure as an unknown key.
- A response whose viewer lacks `sponsorshipsAsMaintainer`: the model's `Viewer` always carries its list of sponsorships. Only a missing viewer (`MissingViewer`) is modelled.
- Tier prices are unbounded integers; the source's JavaScript numbers are exact for every price the API can return.
