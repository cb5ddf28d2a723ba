/**
  The eligibility cache of the Git hooks: what the backend last said about a repository, for
  one server and one account.
 */
module Eligibility {
  import opened Results
  import opened GoStrings

  /** Nanoseconds since Go's zero time. */
  type Time = nat

  const ZERO_TIME: Time := 0
  const MINUTE: Time := 60 * 1_000_000_000
  const POSITIVE_TTL: Time := 24 * 60 * MINUTE
  const NEGATIVE_TTL: Time := 5 * MINUTE

  datatype URL = URL(scheme: string, host: string, path: string, rest: string)

  /** What the cache takes from Go's libraries: net/url, strings.ToLower and the hash of a key. */
  datatype Library = Library(
    parse: string -> Option<URL>, render: URL -> string, lower: string -> string, digest: string -> string)

  function NormalizeServerURL(lib: Library, raw: string): string {
    var s := TrimSpace(raw);
    if s == "" then ""
    else
      var u := lib.parse(s);
      if u.None? || u.value.host == "" then TrimSlashes(s)
      else
        lib.render(u.value.(
          scheme := lib.lower(u.value.scheme), host := lib.lower(u.value.host), path := TrimSlashes(u.value.path)))
  }

  /** hookstate.Context. */
  datatype Binding = Binding(serverURL: string, authSubject: string, repoKey: string) {
    function Normalized(lib: Library): Binding {
      Binding(NormalizeServerURL(lib, serverURL), TrimSpace(authSubject), TrimSpace(repoKey))
    }

    predicate Stable(lib: Library) {
      var n := Normalized(lib);
      n.serverURL != "" && n.authSubject != "" && n.repoKey != ""
    }

    function CacheKey(lib: Library): string {
      lib.digest(Normalized(lib).Joined())
    }

    function Joined(): string {
      serverURL + "\U{1f}" + authSubject + "\U{1f}" + repoKey
    }
  }

  /** client.RepoEligibilityResponse. */
  datatype Response = Response(
    eligible: bool, repoConfigID: int, repoKey: string, fullName: string, cloneURL: string,
    status: string, bindingState: string, reason: string)

  datatype Record = Record(
    eligible: bool, serverURL: string, authSubject: string, repoConfigID: int, repoKey: string,
    fullName: string, cloneURL: string, status: string, bindingState: string, reason: string,
    lastResolvedAt: Time, lastObservedAt: Time, expiresAt: Time)

  datatype Cache = Cache(repos: map<string, Record>, negative: map<string, Record>)

  const EMPTY_CACHE := Cache(map[], map[])

  function RecordKey(lib: Library, b: Binding, resp: Response): string {
    if Blank(resp.repoKey) then b.Normalized(lib).repoKey else TrimSpace(resp.repoKey)
  }

  function PositiveRecord(lib: Library, b: Binding, resp: Response, now: Time): Record {
    var n := b.Normalized(lib);
    Record(
      resp.eligible, n.serverURL, n.authSubject, resp.repoConfigID, RecordKey(lib, b, resp),
      TrimSpace(resp.fullName), TrimSpace(resp.cloneURL), TrimSpace(resp.status), TrimSpace(resp.bindingState),
      TrimSpace(resp.reason), now, now, now + POSITIVE_TTL)
  }

  function NegativeRecord(lib: Library, b: Binding, remoteURL: string, reason: string, now: Time): Record {
    var n := b.Normalized(lib);
    Record(
      false, n.serverURL, n.authSubject, 0, n.repoKey, "", TrimSpace(remoteURL), "", "", TrimSpace(reason),
      now, now, now + NEGATIVE_TTL)
  }

  /** The key a positive answer is stored under: that of the repository the answer names. */
  function PositiveKey(lib: Library, b: Binding, resp: Response): string {
    var n := b.Normalized(lib);
    Binding(n.serverURL, n.authSubject, RecordKey(lib, b, resp)).CacheKey(lib)
  }

  function PutPositive(lib: Library, c: Cache, b: Binding, resp: Response, now: Time): Cache {
    c.(repos := c.repos[PositiveKey(lib, b, resp) := PositiveRecord(lib, b, resp, now)])
  }

  function PutNegative(lib: Library, c: Cache, b: Binding, remoteURL: string, reason: string, now: Time): Cache {
    c.(negative := c.negative[b.Normalized(lib).CacheKey(lib) := NegativeRecord(lib, b, remoteURL, reason, now)])
  }

  predicate Matches(lib: Library, rec: Record, n: Binding) {
    && NormalizeServerURL(lib, rec.serverURL) == n.serverURL
    && TrimSpace(rec.authSubject) == n.authSubject
    && TrimSpace(rec.repoKey) == n.repoKey
  }

  predicate Expired(expiresAt: Time, now: Time) {
    expiresAt != ZERO_TIME && expiresAt <= now
  }

  /** The key lookups use. */
  function LookupKey(lib: Library, b: Binding): string {
    b.Normalized(lib).CacheKey(lib)
  }

  function LookupStalePositive(lib: Library, c: Cache, b: Binding): Option<Record> {
    var key := LookupKey(lib, b);
    if key in c.repos && Matches(lib, c.repos[key], b.Normalized(lib)) &&
       c.repos[key].eligible && c.repos[key].repoConfigID > 0
    then Some(c.repos[key])
    else None
  }

  function Lookup(lib: Library, c: Cache, b: Binding, now: Time): Option<Record> {
    var key := LookupKey(lib, b);
    if LookupStalePositive(lib, c, b).Some? && !Expired(c.repos[key].expiresAt, now) then Some(c.repos[key])
    else if key in c.negative && Matches(lib, c.negative[key], b.Normalized(lib)) && !Expired(c.negative[key].expiresAt, now)
    then Some(c.negative[key])
    else None
  }

  /** Normalizing the URL of this binding again changes nothing. */
  predicate SettledURL(lib: Library, b: Binding) {
    var url := b.Normalized(lib).serverURL;
    NormalizeServerURL(lib, url) == url
  }

  // A positive answer that was stored is found again under the binding it was given for,
  // exactly when it names no other repository (and its URL is settled): stored under another
  // repository's key, it does not serve the binding that asked.
  lemma StoredPositiveIsFoundIff(lib: Library, c: Cache, b: Binding, resp: Response, now: Time)
    requires resp.eligible && resp.repoConfigID > 0
    ensures LookupStalePositive(lib, PutPositive(lib, c, b, resp, now), b) == Some(PositiveRecord(lib, b, resp, now)) <==>
            RecordKey(lib, b, resp) == TrimSpace(b.repoKey) && SettledURL(lib, b)
  {
    TrimSpaceIdempotent(b.authSubject);
    TrimSpaceIdempotent(b.repoKey);
    TrimSpaceIdempotent(resp.repoKey);
  }

  // While it is fresh, it then answers every lookup, whatever refusals are stored beside it.
  lemma FreshPositiveAnswers(lib: Library, c: Cache, b: Binding, resp: Response, now: Time, later: Time)
    requires resp.eligible && resp.repoConfigID > 0
    requires RecordKey(lib, b, resp) == TrimSpace(b.repoKey) && SettledURL(lib, b)
    requires later < now + POSITIVE_TTL
    ensures Lookup(lib, PutPositive(lib, c, b, resp, now), b, later) == Some(PositiveRecord(lib, b, resp, now))
  {
    StoredPositiveIsFoundIff(lib, c, b, resp, now);
  }

  // A refusal answers lookups for five minutes, unless a positive record is fresh; it never
  // touches a positive record, fresh or stale.
  lemma RefusalAnswersBriefly(lib: Library, c: Cache, b: Binding, remoteURL: string, reason: string, now: Time, later: Time)
    requires SettledURL(lib, b)
    ensures var after, positive := PutNegative(lib, c, b, remoteURL, reason, now), LookupStalePositive(lib, c, b);
            && LookupStalePositive(lib, after, b) == positive
            && Lookup(lib, after, b, later) ==
               if positive.Some? && !Expired(positive.value.expiresAt, later) then positive
               else if later < now + NEGATIVE_TTL then Some(NegativeRecord(lib, b, remoteURL, reason, now))
               else None
  {
    TrimSpaceIdempotent(b.authSubject);
    TrimSpaceIdempotent(b.repoKey);
  }

  // Whatever a lookup answers is a record for the binding that asked, and not expired.
  lemma LookupIsForTheBinding(lib: Library, c: Cache, b: Binding, now: Time)
    ensures var rec := Lookup(lib, c, b, now);
            rec.Some? ==> Matches(lib, rec.value, b.Normalized(lib)) && !Expired(rec.value.expiresAt, now)
    ensures var rec := Lookup(lib, c, b, now);
            rec.Some? && !(rec.value.eligible && rec.value.repoConfigID > 0) ==>
              LookupKey(lib, b) in c.negative && rec.value == c.negative[LookupKey(lib, b)]
  {
  }

  lemma NothingFresh(lib: Library, c: Cache, b: Binding, now: Time)
    requires var positive := LookupStalePositive(lib, c, b);
             positive.Some? ==> Expired(positive.value.expiresAt, now)
    requires LookupKey(lib, b) !in c.negative
    ensures Lookup(lib, c, b, now).None?
  {
  }

  // ---------------------------------------------------------------- what is stored, and where

  // A positive answer is kept for a day, under the repository it names or else the one asked
  // for, and nothing else is touched.
  lemma PositiveMeaning(lib: Library, c: Cache, b: Binding, resp: Response, now: Time)
    ensures var after := PutPositive(lib, c, b, resp, now);
            var server, subject := NormalizeServerURL(lib, b.serverURL), TrimSpace(b.authSubject);
            var repo := if TrimSpace(resp.repoKey) != "" then TrimSpace(resp.repoKey) else TrimSpace(b.repoKey);
            var key := Binding(server, subject, repo).CacheKey(lib);
            && after.negative == c.negative
            && (forall k :: k != key ==> (k in after.repos <==> k in c.repos))
            && (forall k :: k != key && k in c.repos ==> after.repos[k] == c.repos[k])
            && key in after.repos
            && var rec := after.repos[key];
               && rec.eligible == resp.eligible && rec.repoConfigID == resp.repoConfigID
               && rec.serverURL == server && rec.authSubject == subject && rec.repoKey == repo
               && rec.fullName == TrimSpace(resp.fullName) && rec.cloneURL == TrimSpace(resp.cloneURL)
               && rec.status == TrimSpace(resp.status) && rec.bindingState == TrimSpace(resp.bindingState)
               && rec.reason == TrimSpace(resp.reason)
               && rec.lastResolvedAt == rec.lastObservedAt == now && rec.expiresAt == now + 86_400_000_000_000
  {
  }

  // A refusal is kept for five minutes under the binding that asked, and nothing else is
  // touched.
  lemma NegativeMeaning(lib: Library, c: Cache, b: Binding, remoteURL: string, reason: string, now: Time)
    ensures var after := PutNegative(lib, c, b, remoteURL, reason, now);
            var server, subject := NormalizeServerURL(lib, b.serverURL), TrimSpace(b.authSubject);
            var repo := TrimSpace(b.repoKey);
            var key := Binding(server, subject, repo).CacheKey(lib);
            && after.repos == c.repos
            && (forall k :: k != key ==> (k in after.negative <==> k in c.negative))
            && (forall k :: k != key && k in c.negative ==> after.negative[k] == c.negative[k])
            && key in after.negative
            && var rec := after.negative[key];
               && !rec.eligible && rec.repoConfigID == 0
               && rec.serverURL == server && rec.authSubject == subject && rec.repoKey == repo
               && rec.fullName == "" && rec.cloneURL == TrimSpace(remoteURL)
               && rec.status == "" && rec.bindingState == ""
               && rec.reason == TrimSpace(reason)
               && rec.lastResolvedAt == rec.lastObservedAt == now && rec.expiresAt == now + 300_000_000_000
  {
  }

  /** The separator of the parts of a key. */
  predicate Unseparated(s: string) {
    '\U{1f}' !in s
  }

  lemma FirstSeparator(a: string, s: string)
    requires Unseparated(a)
    ensures (a + "\U{1f}" + s)[|a|] == '\U{1f}'
    ensures forall i :: 0 <= i < |a| ==> (a + "\U{1f}" + s)[i] != '\U{1f}'
  {
    forall i | 0 <= i < |a|
      ensures (a + "\U{1f}" + s)[i] != '\U{1f}'
    {
      assert a[i] in a;
    }
  }

  lemma SplitAtSeparator(a: string, s: string, b: string, t: string)
    requires Unseparated(a) && Unseparated(b)
    requires a + "\U{1f}" + s == b + "\U{1f}" + t
    ensures a == b && s == t
  {
    var left, right := a + "\U{1f}" + s, b + "\U{1f}" + t;
    FirstSeparator(a, s);
    FirstSeparator(b, t);
    assert |a| == |b|;
    assert a == left[..|a|] && b == right[..|b|];
    assert s == left[|a| + 1..] && t == right[|b| + 1..];
  }

  lemma JoinedIff(m: Binding, n: Binding)
    requires Unseparated(m.serverURL) && Unseparated(m.authSubject)
    requires Unseparated(n.serverURL) && Unseparated(n.authSubject)
    ensures m.Joined() == n.Joined() <==>
            m.serverURL == n.serverURL && m.authSubject == n.authSubject && m.repoKey == n.repoKey
  {
    if m.Joined() == n.Joined() {
      var s, t := m.authSubject + "\U{1f}" + m.repoKey, n.authSubject + "\U{1f}" + n.repoKey;
      assert m.Joined() == m.serverURL + "\U{1f}" + s;
      assert n.Joined() == n.serverURL + "\U{1f}" + t;
      SplitAtSeparator(m.serverURL, s, n.serverURL, t);
      SplitAtSeparator(m.authSubject, m.repoKey, n.authSubject, n.repoKey);
    }
  }

  // With a hash that has no collisions and parts that hold no separator, two bindings share a
  // key exactly when they are the same once normalized.
  lemma SameKeyIff(lib: Library, a: Binding, b: Binding)
    requires forall x: string, y: string :: lib.digest(x) == lib.digest(y) ==> x == y
    requires Unseparated(a.Normalized(lib).serverURL) && Unseparated(a.Normalized(lib).authSubject)
    requires Unseparated(b.Normalized(lib).serverURL) && Unseparated(b.Normalized(lib).authSubject)
    ensures a.CacheKey(lib) == b.CacheKey(lib) <==>
            && NormalizeServerURL(lib, a.serverURL) == NormalizeServerURL(lib, b.serverURL)
            && TrimSpace(a.authSubject) == TrimSpace(b.authSubject) && TrimSpace(a.repoKey) == TrimSpace(b.repoKey)
  {
    JoinedIff(a.Normalized(lib), b.Normalized(lib));
  }

  // A normalized binding is one with a normalized URL and trimmed parts; it is stable when no
  // part of it is empty.
  lemma NormalizedMeaning(lib: Library, b: Binding)
    ensures b.Normalized(lib).serverURL == NormalizeServerURL(lib, b.serverURL)
    ensures b.Normalized(lib).authSubject == TrimSpace(b.authSubject)
    ensures b.Normalized(lib).repoKey == TrimSpace(b.repoKey)
    ensures b.Stable(lib) <==>
            NormalizeServerURL(lib, b.serverURL) != "" && TrimSpace(b.authSubject) != "" && TrimSpace(b.repoKey) != ""
  {
  }

  // Server URLs come out alike exactly when they differ in surrounding space, the case of
  // scheme and host, and slashes at the end of the path, given that URLs are written
  // differently when they are different.
  lemma NormalizedAlikeIff(lib: Library, a: string, b: string)
    requires lib.parse(TrimSpace(a)).Some? && lib.parse(TrimSpace(a)).value.host != "" && TrimSpace(a) != ""
    requires lib.parse(TrimSpace(b)).Some? && lib.parse(TrimSpace(b)).value.host != "" && TrimSpace(b) != ""
    requires forall x: URL, y: URL :: lib.render(x) == lib.render(y) ==> x == y
    ensures var u, v := lib.parse(TrimSpace(a)).value, lib.parse(TrimSpace(b)).value;
            NormalizeServerURL(lib, a) == NormalizeServerURL(lib, b) <==>
            && lib.lower(u.scheme) == lib.lower(v.scheme) && lib.lower(u.host) == lib.lower(v.host)
            && TrimSlashes(u.path) == TrimSlashes(v.path) && u.rest == v.rest
  {
  }

  // A URL that cannot be read as one loses the space around it and the slashes at its end.
  lemma UnparsedURL(lib: Library, raw: string)
    requires lib.parse(TrimSpace(raw)).None? || lib.parse(TrimSpace(raw)).value.host == ""
    ensures NormalizeServerURL(lib, raw) == TrimSlashes(TrimSpace(raw))
  {
  }

  /** The record is for this binding. */
  predicate RecordIsFor(lib: Library, rec: Record, b: Binding) {
    && NormalizeServerURL(lib, rec.serverURL) == NormalizeServerURL(lib, b.serverURL)
    && TrimSpace(rec.authSubject) == TrimSpace(b.authSubject)
    && TrimSpace(rec.repoKey) == TrimSpace(b.repoKey)
  }

  // What a lookup finds: the positive record under the binding's key, if it is for the binding,
  // grants a repository and has not expired, or else the refusal there that is for the binding
  // and has not expired.
  lemma LookupMeaning(lib: Library, c: Cache, b: Binding, now: Time)
    ensures var n := Binding(NormalizeServerURL(lib, b.serverURL), TrimSpace(b.authSubject), TrimSpace(b.repoKey));
            var key := n.CacheKey(lib);
            var granted := key in c.repos && RecordIsFor(lib, c.repos[key], b) && c.repos[key].eligible &&
                           c.repos[key].repoConfigID > 0;
            && LookupStalePositive(lib, c, b) == (if granted then Some(c.repos[key]) else None)
            && Lookup(lib, c, b, now) ==
               if granted && (c.repos[key].expiresAt == 0 || now < c.repos[key].expiresAt) then Some(c.repos[key])
               else if key in c.negative && RecordIsFor(lib, c.negative[key], b) &&
                       (c.negative[key].expiresAt == 0 || now < c.negative[key].expiresAt)
               then Some(c.negative[key])
               else None
  {
  }
}
