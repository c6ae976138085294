// The browser-side helpers of the admin front end (frontend/src/inc/helpers.js):
// namespaced local storage with an optional lifetime, the test that decides
// whether a request goes out without the bearer token, text truncation and the
// "5 minutes ago" rendering of a timestamp.

module FrontendHelpers {
  import opened Wrappers
  import opened Strings
  import opened Values

  // ---- local storage ------------------------------------------------------------------

  const Namespace := "clay-humane-events"

  /** The key under which `key` is kept in the browser's storage. */
  function Namespaced(key: string): (k: string)
    ensures |k| == |Namespace| + 1 + |key|
    ensures k[..|Namespace|] == Namespace && k[|Namespace|] == '-' && k[|Namespace| + 1..] == key
  {
    Namespace + "-" + key
  }

  /** Two keys share a storage slot only when they are the same key. */
  lemma NamespacedInjective(a: string, b: string)
    ensures Namespaced(a) == Namespaced(b) <==> a == b
  {
    if Namespaced(a) == Namespaced(b) {
      assert a == Namespaced(a)[|Namespace| + 1..];
    }
  }

  /** The stored JSON object `{value, expiration?}`; an expiration of zero is as
    * good as none, because it is falsy when read back. */
  datatype StoredItem = StoredItem(value: Value, expiration: Option<int>)

  /** `setLocalStorage(key, value, lifetime)` at time `now` (milliseconds): a
    * lifetime in seconds, where zero means "no lifetime". */
  function Stamp(value: Value, lifetime: int, now: int): (item: StoredItem)
    ensures item.value == value
    ensures item.expiration.Some? <==> lifetime != 0
    ensures item.expiration.Some? ==> item.expiration.value == now + lifetime * 1000
  {
    StoredItem(value, if lifetime != 0 then Some(now + lifetime * 1000) else None)
  }

  /** A truthy expiration that lies strictly before `now`. */
  predicate Expired(item: StoredItem, now: int)
  {
    item.expiration.Some? && item.expiration.value != 0 && now > item.expiration.value
  }

  /** What `getLocalStorage(key)` returns at time `now`: `false` for a missing or
    * expired entry, the stored value otherwise. */
  function Lookup(items: map<string, StoredItem>, key: string, now: int): (v: Value)
  {
    var slot := Namespaced(key);
    if slot !in items then Bool(false)
    else if Expired(items[slot], now) then Bool(false)
    else items[slot].value
  }

  /** The storage after that lookup: an expired entry has been removed. */
  function AfterLookup(items: map<string, StoredItem>, key: string, now: int): (after: map<string, StoredItem>)
  {
    var slot := Namespaced(key);
    if slot in items && Expired(items[slot], now) then items - {slot} else items
  }

  /** A value stored without a lifetime is read back at any later time, and the
    * read leaves the storage as it was. */
  lemma SetThenGet(items: map<string, StoredItem>, key: string, value: Value, setAt: int, now: int)
    ensures Lookup(items[Namespaced(key) := Stamp(value, 0, setAt)], key, now) == value
    ensures AfterLookup(items[Namespaced(key) := Stamp(value, 0, setAt)], key, now)
         == items[Namespaced(key) := Stamp(value, 0, setAt)]
  {
  }

  /** With a lifetime of `l` seconds the value is read back up to `setAt + 1000·l`
    * (or forever, when that instant is zero); afterwards the read gives `false`
    * and deletes the entry. */
  lemma SetWithLifetime(items: map<string, StoredItem>, key: string, value: Value, l: int, setAt: int, now: int)
    requires l != 0
    ensures var s := items[Namespaced(key) := Stamp(value, l, setAt)];
      && (now <= setAt + l * 1000 || setAt + l * 1000 == 0 ==> Lookup(s, key, now) == value && AfterLookup(s, key, now) == s)
      && (now > setAt + l * 1000 && setAt + l * 1000 != 0 ==>
            Lookup(s, key, now) == Bool(false) && AfterLookup(s, key, now) == items - {Namespaced(key)})
  {
  }

  /** A key never stored reads as `false` and nothing is removed. */
  lemma MissingIsFalse(items: map<string, StoredItem>, key: string, now: int)
    requires Namespaced(key) !in items
    ensures Lookup(items, key, now) == Bool(false)
    ensures AfterLookup(items, key, now) == items
  {
  }

  /** Storing under one key does not change what another key reads. */
  lemma SetLeavesOtherKeys(items: map<string, StoredItem>, key: string, other: string, value: Value, l: int, setAt: int, now: int)
    requires other != key
    ensures Lookup(items[Namespaced(key) := Stamp(value, l, setAt)], other, now) == Lookup(items, other, now)
  {
    NamespacedInjective(key, other);
  }

  /** The browser's storage for this origin, as seen by the helpers. */
  class LocalStore {
    var items: map<string, StoredItem>

    constructor(initial: map<string, StoredItem>)
      ensures items == initial
    {
      items := initial;
    }

    /** `setLocalStorage(key, value, lifetime)`, with the clock read passed in. */
    method Set(key: string, value: Value, lifetime: int, now: int)
      modifies this
      ensures items == old(items)[Namespaced(key) := Stamp(value, lifetime, now)]
    {
      var item := StoredItem(value, None);
      if lifetime != 0 {
        item := item.(expiration := Some(now + lifetime * 1000));
      }
      items := items[Namespaced(key) := item];
    }

    /** `getLocalStorage(key)`: an expired entry is deleted before `false` is returned. */
    method Get(key: string, now: int) returns (v: Value)
      modifies this
      ensures v == Lookup(old(items), key, now)
      ensures items == AfterLookup(old(items), key, now)
    {
      var slot := Namespaced(key);
      if slot !in items {
        return Bool(false);
      }
      var item := items[slot];
      if item.expiration.Some? && item.expiration.value != 0 {
        if now > item.expiration.value {
          Delete(key);
          return Bool(false);
        }
      }
      v := item.value;
    }

    /** `deleteLocalStorage(key)`. */
    method Delete(key: string)
      modifies this
      ensures items == old(items) - {Namespaced(key)}
    {
      items := items - {Namespaced(key)};
    }
  }

  // ---- public endpoints -------------------------------------------------------------------

  /** The fragments that mark an endpoint as callable without a token. */
  const PublicMarkers: seq<string> :=
    ["auth", "user/login", "user/register", "event/key/", "event/public/open", "eventRegistration/register"]

  /** `isPublicApiEndpoint(endpoint)`. */
  predicate IsPublicApiEndpoint(endpoint: string)
  {
    Contains(endpoint, "auth") || Contains(endpoint, "user/login") || Contains(endpoint, "user/register")
    || Contains(endpoint, "event/key/") || Contains(endpoint, "event/public/open")
    || Contains(endpoint, "eventRegistration/register")
  }

  /** An endpoint is public exactly when it contains one of the listed fragments. */
  lemma PublicIffMarker(endpoint: string)
    ensures IsPublicApiEndpoint(endpoint) <==> exists i :: 0 <= i < |PublicMarkers| && Contains(endpoint, PublicMarkers[i])
  {
    if IsPublicApiEndpoint(endpoint) {
      if Contains(endpoint, "auth") { assert Contains(endpoint, PublicMarkers[0]); }
      else if Contains(endpoint, "user/login") { assert Contains(endpoint, PublicMarkers[1]); }
      else if Contains(endpoint, "user/register") { assert Contains(endpoint, PublicMarkers[2]); }
      else if Contains(endpoint, "event/key/") { assert Contains(endpoint, PublicMarkers[3]); }
      else if Contains(endpoint, "event/public/open") { assert Contains(endpoint, PublicMarkers[4]); }
      else { assert Contains(endpoint, PublicMarkers[5]); }
    }
  }

  lemma ContainsWithin(pre: string, s: string, post: string, sub: string)
    requires Contains(s, sub)
    ensures Contains(pre + s + post, sub)
  {
    var i :| 0 <= i <= |s| && IsPrefix(sub, s[i..]);
    var t := pre + s + post;
    assert t[|pre| + i..][..|sub|] == s[i..][..|sub|];
  }

  /** Whatever surrounds a public endpoint, the result is still public: every path
    * containing `auth` anywhere, such as `authSession/search`, goes out without a
    * token. */
  lemma PublicInAnyContext(pre: string, endpoint: string, post: string)
    requires IsPublicApiEndpoint(endpoint)
    ensures IsPublicApiEndpoint(pre + endpoint + post)
  {
    PublicIffMarker(endpoint);
    var i :| 0 <= i < |PublicMarkers| && Contains(endpoint, PublicMarkers[i]);
    ContainsWithin(pre, endpoint, post, PublicMarkers[i]);
    PublicIffMarker(pre + endpoint + post);
  }

  lemma AuthSessionLooksPublic()
    ensures IsPublicApiEndpoint("authSession/search")
  {
    assert IsPrefix("auth", "authSession/search"[0..]);
  }

  // ---- truncation ---------------------------------------------------------------------------

  const DefaultMaxLength := 150

  /** `truncateText(text, maxLength)`: lengths are JavaScript's UTF-16 code units, and
    * `substring` clamps a negative length to zero. */
  function TruncateText(text: string, maxLength: int): (r: string)
  {
    if text == "" || JsLength(text) <= maxLength then text
    else TrimEnd(JsPrefix(text, if maxLength < 0 then 0 else maxLength)) + "..."
  }

  /** A short text comes back unchanged; a long one becomes a trimmed prefix of at
    * most `maxLength` code units followed by an ellipsis. */
  lemma TruncateShape(text: string, maxLength: int)
    ensures JsLength(text) <= maxLength ==> TruncateText(text, maxLength) == text
    ensures JsLength(text) > maxLength >= 0 ==>
      var r := TruncateText(text, maxLength);
      && JsLength(r) <= maxLength + 3
      && r[|r| - 3..] == "..."
      && r[..|r| - 3] == text[..|r| - 3]
      && (|r| - 3 == 0 || !IsSpace(r[|r| - 4]))
    ensures |text| > 0 && maxLength < 0 ==> TruncateText(text, maxLength) == "..."
  {
    if JsLength(text) > maxLength >= 0 {
      var p := JsPrefix(text, maxLength);
      var cut := TrimEnd(p);
      assert TruncateText(text, maxLength) == cut + "...";
      JsLengthPrefix(p, |cut|);
      assert p[..|cut|] == cut;
      JsLengthAppend(cut, "...");
      assert text[..|cut|] == text[..|p|][..|cut|];
    }
  }

  /** Truncating again at the same length reproduces the result when the cut
    * filled the whole budget and ended on a non-blank character. */
  lemma TruncateTwice(text: string, maxLength: int)
    requires JsLength(text) > maxLength >= 0
    requires JsLength(JsPrefix(text, maxLength)) == maxLength
    requires var p := JsPrefix(text, maxLength); p == [] || !IsSpace(p[|p| - 1])
    ensures TruncateText(TruncateText(text, maxLength), maxLength) == TruncateText(text, maxLength)
  {
    var p := JsPrefix(text, maxLength);
    var r := TruncateText(text, maxLength);
    assert TrimEnd(p) == p;
    assert r == p + "...";
    JsLengthAppend(p, "...");
    JsPrefixOfLonger(p, "...", maxLength);
  }

  /** Cutting `a + b` to exactly `a`'s code units gives `a` back. */
  lemma {:induction false} JsPrefixOfLonger(a: string, b: string, n: nat)
    requires JsLength(a) == n && b != []
    ensures JsPrefix(a + b, n) == a
  {
    if a == [] {
      assert Units((a + b)[0]) > 0;
    } else {
      assert (a + b)[0] == a[0] && (a + b)[1..] == a[1..] + b;
      JsPrefixOfLonger(a[1..], b, n - Units(a[0]));
    }
  }

  // ---- relative time --------------------------------------------------------------------------

  datatype Unit = Seconds | Minute | Hour | Day | Month | Year

  /** The bucket `formatRelativeTime` renders: unknown, "just now", or a count of units. */
  datatype Relative = Unknown | JustNow | Ago(count: int, unit: Unit)

  /** The bucket for a date (milliseconds; `None` for a falsy date) seen at `now`.
    * For a non-negative int, Dafny's division by a positive constant is `Math.floor`. */
  function Classify(date: Option<int>, now: int): (r: Relative)
    ensures r.Ago? ==> r.count >= 1
    ensures r.Ago? && r.unit == Seconds ==> 30 <= r.count < 60
    ensures r.Ago? && r.unit == Minute ==> r.count < 60
    ensures r.Ago? && r.unit == Hour ==> r.count < 24
    ensures r.Ago? && r.unit == Day ==> r.count < 30
    ensures r.Ago? && r.unit == Month ==> r.count < 12
  {
    if date.None? then Unknown
    else
      var seconds := (now - date.value) / 1000;
      if seconds < 30 then JustNow
      else if seconds < 60 then Ago(seconds, Seconds)
      else
        var minutes := seconds / 60;
        if minutes < 60 then Ago(minutes, Minute)
        else
          var hours := minutes / 60;
          if hours < 24 then Ago(hours, Hour)
          else
            var days := hours / 24;
            if days < 30 then Ago(days, Day)
            else
              var months := days / 30;
              if months < 12 then Ago(months, Month)
              else Ago(months / 12, Year)
  }

  lemma DivChain(s: int)
    requires s >= 0
    ensures s / 60 / 60 == s / 3600
    ensures s / 3600 / 24 == s / 86400
    ensures s / 86400 / 30 == s / 2592000
    ensures s / 2592000 / 12 == s / 31104000
  {
  }

  /** The unit is chosen by whole elapsed seconds, with months of 30 days and years
    * of 360 days, and the count is the elapsed time in that unit, rounded down. */
  lemma Buckets(date: int, now: int)
    ensures var s := (now - date) / 1000; var r := Classify(Some(date), now);
      && (r == JustNow <==> s < 30)
      && (r.Ago? && r.unit == Seconds <==> 30 <= s < 60)
      && (r.Ago? && r.unit == Minute <==> 60 <= s < 3600)
      && (r.Ago? && r.unit == Hour <==> 3600 <= s < 86400)
      && (r.Ago? && r.unit == Day <==> 86400 <= s < 2592000)
      && (r.Ago? && r.unit == Month <==> 2592000 <= s < 31104000)
      && (r.Ago? && r.unit == Year <==> s >= 31104000)
      && (r.Ago? ==> r.count == s / UnitSeconds(r.unit))
  {
    var s := (now - date) / 1000;
    if s >= 0 {
      DivChain(s);
    }
  }

  function UnitSeconds(u: Unit): int
  {
    match u
    case Seconds => 1
    case Minute => 60
    case Hour => 3600
    case Day => 86400
    case Month => 2592000
    case Year => 31104000
  }

  function UnitWord(u: Unit): string
  {
    match u
    case Seconds => "second"
    case Minute => "minute"
    case Hour => "hour"
    case Day => "day"
    case Month => "month"
    case Year => "year"
  }

  /** The text shown for a bucket; only seconds are always plural. */
  function Render(r: Relative): string
  {
    match r
    case Unknown => "Unknown"
    case JustNow => "Just now"
    case Ago(n, u) =>
      IntToString(n) + " " + UnitWord(u) + (if n != 1 || u == Seconds then "s" else "") + " ago"
  }

  /** `formatRelativeTime(date)` at time `now`. */
  function FormatRelativeTime(date: Option<int>, now: int): string
  {
    Render(Classify(date, now))
  }

  /** The unit word is plural exactly when the count is not one; the count is
    * written out in decimal first. */
  lemma Plurals(n: int, u: Unit)
    ensures var t := Render(Ago(n, u)); var w := IntToString(n) + " " + UnitWord(u);
      && t[..|w|] == w
      && (n != 1 ==> t == w + "s ago")
      && (n == 1 && u != Seconds ==> t == w + " ago")
  {
  }

  /** A missing date reads "Unknown"; a date less than half a minute old, or in
    * the future, reads "Just now"; one minute exactly reads "1 minute ago". */
  lemma RelativeExamples(now: int)
    ensures FormatRelativeTime(None, now) == "Unknown"
    ensures FormatRelativeTime(Some(now + 5000), now) == "Just now"
    ensures FormatRelativeTime(Some(now - 60000), now) == "1 minute ago"
    ensures FormatRelativeTime(Some(now - 7200000), now) == "2 hours ago"
  {
    AgoExample(now, 60000, 1, Minute);
    AgoExample(now, 7200000, 2, Hour);
    RenderExamples();
  }

  /** One elapsed span of whole minutes or hours and the bucket it falls in. */
  lemma AgoExample(now: int, elapsed: int, n: int, u: Unit)
    requires (u == Minute && 1 <= n < 60) || (u == Hour && 1 <= n < 24)
    requires elapsed == n * UnitSeconds(u) * 1000
    ensures Classify(Some(now - elapsed), now) == Ago(n, u)
  {
  }

  lemma RenderExamples()
    ensures Render(Ago(1, Minute)) == "1 minute ago"
    ensures Render(Ago(2, Hour)) == "2 hours ago"
  {
    assert IntToString(1) == "1";
    assert IntToString(2) == "2";
  }
}
