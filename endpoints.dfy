/** The endpoint registry of lib/rest.js (`module.exports.resources`). */
module Endpoints {

  /** The default limits a registry entry carries: `false`, or per-user and per-app counts. */
  datatype DefaultLimits = Unlimited | Limited(user: nat, app: nat)

  /** One registry entry; its key in the registry object is `verb + ' ' + path`. */
  datatype Resource = Resource(verb: string, path: string, limits: DefaultLimits)
  {
    function Key(): string
    {
      verb + " " + path
    }
  }

  /**
   * The registry, in the order in which its keys are enumerated, made of the
   * groups in which the source lists it.
   */
  const Registry: seq<Resource> := Statuses + AfterStatuses

  /** Entries 11 to 97: everything after the statuses. */
  const AfterStatuses: seq<Resource> :=
    Search + DirectMessages + Friendships + Account +
    Blocks + Users + ProfileBanners + Suggestions + Favorites + FavoritesById +
    Lists + SavedSearches + Geo + Trends + SpamReports + OAuth + Help + Application

  /** Entries 0 to 10: statuses. */
  const Statuses: seq<Resource> := [
    Resource("GET", "statuses/mentions_timeline", Limited(15, 0)),
    Resource("GET", "statuses/user_timeline", Limited(180, 300)),
    Resource("GET", "statuses/home_timeline", Limited(15, 0)),
    Resource("GET", "statuses/retweets_of_me", Limited(15, 0)),
    Resource("GET", "statuses/retweets/", Limited(15, 60)),
    Resource("GET", "statuses/show/", Limited(180, 180)),
    Resource("POST", "statuses/destroy/", Unlimited),
    Resource("POST", "statuses/update", Unlimited),
    Resource("POST", "statuses/retweet/", Unlimited),
    Resource("POST", "statuses/update_with_media", Unlimited),
    Resource("GET", "statuses/oembed", Limited(180, 180))
  ]

  /** Entry 11: search. */
  const Search: seq<Resource> := [
    Resource("GET", "search/tweets", Limited(180, 450))
  ]

  /** Entries 12 to 16: direct messages. */
  const DirectMessages: seq<Resource> := [
    Resource("GET", "direct_messages", Limited(15, 0)),
    Resource("GET", "direct_messages/sent", Limited(15, 0)),
    Resource("GET", "direct_messages/show", Limited(15, 0)),
    Resource("POST", "direct_messages/destroy", Unlimited),
    Resource("POST", "direct_messages/new", Unlimited)
  ]

  /** Entries 17 to 28: friends, followers and friendships. */
  const Friendships: seq<Resource> := [
    Resource("GET", "friendships/no_retweets/ids", Limited(15, 0)),
    Resource("GET", "friends/ids", Limited(15, 15)),
    Resource("GET", "followers/ids", Limited(15, 15)),
    Resource("GET", "friendships/lookup", Limited(15, 0)),
    Resource("GET", "friendships/incoming", Limited(15, 0)),
    Resource("GET", "friendships/outgoing", Limited(15, 0)),
    Resource("POST", "friendships/create", Unlimited),
    Resource("POST", "friendships/destroy", Unlimited),
    Resource("POST", "friendships/update", Unlimited),
    Resource("GET", "friendships/show", Limited(180, 15)),
    Resource("GET", "friends/list", Limited(15, 30)),
    Resource("GET", "followers/list", Limited(15, 30))
  ]

  /** Entries 29 to 36: account settings and profile. */
  const Account: seq<Resource> := [
    Resource("GET", "account/settings", Limited(15, 0)),
    Resource("GET", "account/verify_credentials", Limited(15, 0)),
    Resource("POST", "account/settings", Unlimited),
    Resource("POST", "account/update_delivery_device", Limited(0, 0)),
    Resource("POST", "account/update_profile", Limited(0, 0)),
    Resource("POST", "account/update_profile_background_image", Limited(0, 0)),
    Resource("POST", "account/update_profile_colors", Limited(0, 0)),
    Resource("POST", "account/update_profile_image", Limited(0, 0))
  ]

  /** Entries 37 to 40: blocks. */
  const Blocks: seq<Resource> := [
    Resource("GET", "blocks/list", Limited(15, 0)),
    Resource("GET", "blocks/ids", Limited(15, 0)),
    Resource("POST", "blocks/create", Limited(0, 0)),
    Resource("POST", "blocks/destroy", Limited(0, 0))
  ]

  /** Entries 41 to 45: users. */
  const Users: seq<Resource> := [
    Resource("GET", "users/lookup", Limited(180, 60)),
    Resource("GET", "users/show", Limited(180, 180)),
    Resource("GET", "users/search", Limited(180, 0)),
    Resource("GET", "users/contributees", Limited(15, 0)),
    Resource("GET", "users/contributors", Limited(15, 0))
  ]

  /** Entries 46 to 48: profile banners. */
  const ProfileBanners: seq<Resource> := [
    Resource("POST", "account/remove_profile_banner", Unlimited),
    Resource("POST", "account/update_profile_banner", Unlimited),
    Resource("GET", "users/profile_banner", Limited(180, 0))
  ]

  /** Entries 49 to 51: user suggestions. */
  const Suggestions: seq<Resource> := [
    Resource("GET", "users/suggestions/", Limited(15, 15)),
    Resource("GET", "users/suggestions", Limited(15, 15)),
    Resource("GET", "users/suggestions//members", Limited(15, 15))
  ]

  /** Entries 52 to 54: favorites. */
  const Favorites: seq<Resource> := [
    Resource("GET", "favorites/list", Limited(15, 15)),
    Resource("POST", "favorites/destroy", Limited(0, 0)),
    Resource("POST", "favorites/create", Unlimited)
  ]

  /** Entry 55: favorites by id. */
  const FavoritesById: seq<Resource> := [
    Resource("GET", "favorites/", Limited(0, 0))
  ]

  /** Entries 56 to 73: lists. */
  const Lists: seq<Resource> := [
    Resource("GET", "lists/list", Limited(15, 15)),
    Resource("GET", "lists/statuses", Limited(180, 180)),
    Resource("POST", "lists/members/destroy", Limited(0, 0)),
    Resource("GET", "lists/memberships", Limited(15, 15)),
    Resource("GET", "lists/subscribers", Limited(180, 15)),
    Resource("POST", "lists/subscribers/create", Limited(0, 0)),
    Resource("GET", "lists/subscribers/show", Limited(15, 15)),
    Resource("POST", "lists/subscribers/destroy", Limited(0, 0)),
    Resource("POST", "lists/members/create_all", Limited(0, 0)),
    Resource("GET", "lists/members/show", Limited(15, 15)),
    Resource("GET", "lists/members", Limited(180, 15)),
    Resource("POST", "lists/members/create", Limited(0, 0)),
    Resource("POST", "lists/destroy", Limited(0, 0)),
    Resource("POST", "lists/update", Limited(0, 0)),
    Resource("POST", "lists/create", Limited(0, 0)),
    Resource("GET", "lists/show", Limited(15, 15)),
    Resource("GET", "lists/subscribtions", Limited(15, 15)),
    Resource("GET", "lists/members/destroy_all", Limited(0, 0))
  ]

  /** Entries 74 to 77: saved searches. */
  const SavedSearches: seq<Resource> := [
    Resource("GET", "saved_searches/list", Limited(15, 0)),
    Resource("GET", "saved_searches/show/", Limited(15, 0)),
    Resource("POST", "saved_searches/create", Unlimited),
    Resource("POST", "saved_searches/destroy/", Limited(0, 0))
  ]

  /** Entries 78 to 82: places. */
  const Geo: seq<Resource> := [
    Resource("GET", "geo/id/", Limited(15, 0)),
    Resource("GET", "geo/reverse_geocode", Limited(15, 0)),
    Resource("GET", "geo/search", Limited(15, 0)),
    Resource("GET", "geo/similar_places", Limited(15, 0)),
    Resource("POST", "geo/place", Limited(0, 0))
  ]

  /** Entries 83 to 85: trends. */
  const Trends: seq<Resource> := [
    Resource("GET", "trends/place", Limited(15, 15)),
    Resource("GET", "trends/available", Limited(15, 15)),
    Resource("GET", "trends/closest", Limited(15, 15))
  ]

  /** Entry 86: spam reports. */
  const SpamReports: seq<Resource> := [
    Resource("POST", "users/report_spam", Limited(0, 0))
  ]

  /** Entries 87 to 92: authentication. */
  const OAuth: seq<Resource> := [
    Resource("GET", "oauth/authenticate", Unlimited),
    Resource("GET", "oauth/authorize", Unlimited),
    Resource("POST", "oauth/access_token", Unlimited),
    Resource("POST", "oauth/request_token", Unlimited),
    Resource("POST", "oauth2/token", Unlimited),
    Resource("POST", "oauth2/invalidate_token", Unlimited)
  ]

  /** Entries 93 to 96: help. */
  const Help: seq<Resource> := [
    Resource("GET", "help/configuration", Limited(15, 15)),
    Resource("GET", "help/languages", Limited(15, 15)),
    Resource("GET", "help/privacy", Limited(15, 15)),
    Resource("GET", "help/tos", Limited(15, 15))
  ]

  /** Entry 97: application. */
  const Application: seq<Resource> := [
    Resource("GET", "application/rate_limit_status", Limited(180, 180))
  ]

  /** The registry's keys, as `Object.keys(resources)` lists them. */
  function Keys(): (ks: seq<string>)
    ensures |ks| == |Registry|
    ensures forall j :: 0 <= j < |Registry| ==> ks[j] == Registry[j].Key()
  {
    seq(|Registry|, j requires 0 <= j < |Registry| => Registry[j].Key())
  }

  /** Whether `resource` is one of the registry's keys (`indexOf(resource) !== -1`). */
  predicate IsKey(resource: string)
  {
    resource in Keys()
  }

  /** A key is a registry key exactly when some entry's verb and path spell it. */
  lemma IsKeyRegistered(resource: string)
    ensures IsKey(resource) <==> exists j :: 0 <= j < |Registry| && Registry[j].Key() == resource
  {
    if IsKey(resource) {
      var j :| 0 <= j < |Keys()| && Keys()[j] == resource;
      assert Registry[j].Key() == resource;
    }
  }

  /*
   * The entries a longer path shadows, each written as the extension of the
   * shorter path it starts with.
   */

  lemma StatusesUpdateEntry()
    ensures Registry[7] == Resource("POST", "statuses/update", Unlimited)
  {
  }

  lemma UpdateWithMediaEntry()
    ensures Registry[9] == Resource("POST", "statuses/update" + "_with_media", Unlimited)
  {
  }

  lemma UpdateProfileEntry()
    ensures Registry[33] == Resource("POST", "account/update_profile", Limited(0, 0))
  {
  }

  lemma BackgroundImageEntry()
    ensures Registry[34] == Resource("POST", "account/update_profile" + "_background_image", Limited(0, 0))
  {
  }

  lemma ProfileColorsEntry()
    ensures Registry[35] == Resource("POST", "account/update_profile" + "_colors", Limited(0, 0))
  {
  }

  lemma ProfileImageEntry()
    ensures Registry[36] == Resource("POST", "account/update_profile" + "_image", Limited(0, 0))
  {
  }

  lemma ProfileBannerEntry()
    ensures Registry[47] == Resource("POST", "account/update_profile" + "_banner", Unlimited)
  {
  }

  lemma DirectMessagesEntries()
    ensures Registry[13] == Resource("GET", "direct_messages/sent", Limited(15, 0))
    ensures Registry[14] == Resource("GET", "direct_messages/show", Limited(15, 0))
  {
  }

  lemma SuggestionsEntries()
    ensures Registry[49] == Resource("GET", "users/suggestions/", Limited(15, 15))
    ensures Registry[50] == Resource("GET", "users/suggestions", Limited(15, 15))
    ensures Registry[51] == Resource("GET", "users/suggestions//members", Limited(15, 15))
  {
  }

  lemma ListsEntries()
    ensures Registry[58] == Resource("POST", "lists/members/destroy", Limited(0, 0))
    ensures Registry[60] == Resource("GET", "lists/subscribers", Limited(180, 15))
    ensures Registry[62] == Resource("GET", "lists/subscribers/show", Limited(15, 15))
    ensures Registry[73] == Resource("GET", "lists/members/destroy_all", Limited(0, 0))
  {
  }

  lemma StatusesEntries()
    ensures forall j :: 0 <= j < 11 ==> |Registry[j].path| >= 5 && Registry[j].path[..5] == "statu"
  {
    assert forall j :: 0 <= j < 11 ==> Registry[j] == Statuses[j];
    StatusesPaths();
  }

  lemma StatusesPaths()
    ensures forall j :: 0 <= j < |Statuses| ==> |Statuses[j].path| >= 5 && Statuses[j].path[..5] == "statu"
  {
  }

  lemma SearchEntry()
    ensures Registry[11] == Resource("GET", "search/tweets", Limited(180, 450))
  {
  }

  lemma DirectMessagesKey()
    ensures Registry[12].Key() == "GET direct_messages"
  {
    DirectMessagesHead();
    GetKey(Registry[12], "direct_messages");
  }

  lemma DirectMessagesHead()
    ensures Registry[12] == Resource("GET", "direct_messages", Limited(15, 0))
  {
  }

  lemma GetKey(r: Resource, path: string)
    requires r.verb == "GET" && r.path == path
    ensures r.Key() == "GET " + path
  {
  }
}
