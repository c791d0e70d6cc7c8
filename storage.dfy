/**
 * The per-profile persistence of js/storage.js: one JSON record per profile,
 * stored in the browser's `localStorage` under the key `mini-casino:<profile>:state`.
 * `localStorage` is the `Store` class; JSON text is abstracted as `Raw`.
 */
module Storage {
  import opened Wrappers

  /** Counters kept in every record (never updated by the scripts). */
  datatype Stats = Stats(wins: int, losses: int)

  /** The persisted record `{balance, lastClaimDate, stats}`; a date is a "YYYY-MM-DD" string. */
  datatype ProfileState = ProfileState(balance: int, lastClaimDate: Option<string>, stats: Stats)

  /**
   * A raw stored string. `Json(s)` is what `JSON.stringify(s)` produced;
   * `Text(chars)` is any other string (empty, hand-edited, corrupt), on which parsing fails.
   */
  datatype Raw = Json(state: ProfileState) | Text(chars: string)

  type Items = map<string, Raw>

  const ROOT_KEY := "mini-casino"

  /** The storage key of a profile. */
  function K(profile: string): (key: string)
    ensures |key| == |ROOT_KEY| + |profile| + 7
    ensures key[..|ROOT_KEY| + 1] == ROOT_KEY + ":"
    ensures key[|ROOT_KEY| + 1..|ROOT_KEY| + 1 + |profile|] == profile
  {
    ROOT_KEY + ":" + profile + ":state"
  }

  /** Distinct profiles never share a storage key. */
  lemma KInjective(p: string, q: string)
    ensures K(p) == K(q) ==> p == q
  {
    if K(p) == K(q) {
      assert |p| == |q|;
      calc {
        p;
        K(p)[|ROOT_KEY| + 1..|ROOT_KEY| + 1 + |p|];
        K(q)[|ROOT_KEY| + 1..|ROOT_KEY| + 1 + |q|];
        q;
      }
    }
  }

  /** `JSON.stringify` of a record. */
  function Encode(s: ProfileState): Raw {
    Json(s)
  }

  /** `JSON.parse`, which fails on text that no record was encoded to. */
  function Parse(raw: Raw): (r: Option<ProfileState>)
    ensures r.Some? <==> raw.Json?
    ensures raw.Json? ==> r == Some(raw.state)
  {
    match raw
    case Json(s) => Some(s)
    case Text(_) => None
  }

  /** An encoded record parses back to itself. */
  lemma ParseEncode(s: ProfileState)
    ensures Parse(Encode(s)) == Some(s)
  {
  }

  /** What `loadProfileState(profile)` returns for a given content of `localStorage`. */
  function LoadFrom(items: Items, profile: string): (r: Option<ProfileState>)
    ensures K(profile) !in items ==> r == None
    ensures K(profile) in items && items[K(profile)].Text? ==> r == None
    ensures K(profile) in items && items[K(profile)].Json? ==> r == Some(items[K(profile)].state)
  {
    var key := K(profile);
    if key !in items || items[key] == Text("") then None
    else Parse(items[key])
  }

  /** The content of `localStorage` after `saveProfileState(profile, state)`. */
  function Save(items: Items, profile: string, state: ProfileState): (m: Items)
    ensures m.Keys == items.Keys + {K(profile)}
  {
    items[K(profile) := Encode(state)]
  }

  /** Saving a record and loading it back gives the record. */
  lemma SaveThenLoad(items: Items, profile: string, state: ProfileState)
    ensures LoadFrom(Save(items, profile, state), profile) == Some(state)
  {
  }

  /** Saving one profile leaves what every other profile loads unchanged. */
  lemma SaveLeavesOthers(items: Items, p: string, q: string, state: ProfileState)
    requires p != q
    ensures LoadFrom(Save(items, p, state), q) == LoadFrom(items, q)
  {
    KInjective(p, q);
  }

  /** The browser's `localStorage`, as far as the scripts use it. */
  class Store {
    var items: Items

    constructor (initial: Items)
      ensures items == initial
    {
      items := initial;
    }

    /**
     * `loadProfileState`: the stored record, or `None` when it is missing or
     * unreadable. `LoadFrom` is its specification, on the current content.
     */
    function LoadProfileState(profile: string): (r: Option<ProfileState>)
      reads this
      ensures r == LoadFrom(items, profile)
    {
      LoadFrom(items, profile)
    }

    /** `saveProfileState`: overwrites the profile's entry and nothing else. */
    method SaveProfileState(profile: string, state: ProfileState)
      modifies this
      ensures items == Save(old(items), profile, state)
      ensures LoadProfileState(profile) == Some(state)
      ensures forall q :: q != profile ==> LoadProfileState(q) == old(LoadProfileState(q))
    {
      items := items[K(profile) := Encode(state)];
      forall q | q != profile
        ensures LoadFrom(items, q) == LoadFrom(old(items), q)
      {
        SaveLeavesOthers(old(items), profile, q, state);
      }
    }
  }

  /** `listKnownProfiles`: no registry exists, so the list is always empty. */
  function ListKnownProfiles(): (r: seq<string>)
    ensures |r| == 0
  {
    []
  }
}
