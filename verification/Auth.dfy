/** NIP-98 (HTTP Auth) verification and the guards behind it. Decoding, signatures and
    the body digest are taken as given in the request; everything the gateway decides
    from them is here, in the source's order. */
module Auth {
  import opened Numbers
  import opened Security

  const NIP98_KIND: nat := 27235

  datatype AuthError =
    | MissingHeader | BadScheme | BadBase64 | BadEvent | BadSignature | WrongKind
    | StaleTimestamp | MissingTag(name: string) | UrlMismatch | MethodMismatch
    | PayloadMismatch | Replayed | RateLimited

  datatype Event = Event(id: string, pubkey: string, kind: nat, createdAt: U64, tags: seq<seq<string>>)

  /** What the Authorization header turned out to hold. */
  datatype Header = NoHeader | OtherScheme | NotBase64 | NotAnEvent | Signed(event: Event, signatureValid: bool)

  /** One request as the verifier sees it. `urlMatches` is the URL comparison against the
      signed `u` tag, `bodyDigest` the hex sha256 of the body. */
  datatype Call = Call(header: Header, method_: string, urlMatches: string -> bool, bodyDigest: string,
                       now: U64, instant: real)

  function UpperChar(c: char): char {
    if 'a' <= c <= 'z' then c - 'a' + 'A' else c
  }

  predicate EqIgnoreCase(a: string, b: string) {
    |a| == |b| && forall i :: 0 <= i < |a| ==> UpperChar(a[i]) == UpperChar(b[i])
  }

  // ---- Tags --------------------------------------------------------------------

  predicate Names(tag: seq<string>, name: string) {
    |tag| >= 2 && tag[0] == name
  }

  /** The value of the last tag with this name, as repeated assignment leaves it. */
  function LastTag(tags: seq<seq<string>>, name: string): Option<string> {
    if tags == [] then None
    else
      var last := tags[|tags| - 1];
      if Names(last, name) then Some(last[1]) else LastTag(tags[..|tags| - 1], name)
  }

  /** A later tag wins, tags of one element are skipped, and nothing is found only when
      no tag has the name. */
  lemma {:induction false} LastTagWins(tags: seq<seq<string>>, name: string)
    ensures LastTag(tags, name).None? <==> forall i :: 0 <= i < |tags| ==> !Names(tags[i], name)
    ensures LastTag(tags, name).Some? ==>
            exists i :: 0 <= i < |tags| && Names(tags[i], name) && LastTag(tags, name) == Some(tags[i][1])
                        && forall j :: i < j < |tags| ==> !Names(tags[j], name)
    decreases |tags|
  {
    if tags != [] && !Names(tags[|tags| - 1], name) {
      LastTagWins(tags[..|tags| - 1], name);
    } else if tags != [] {
      var n := |tags| - 1;
      assert Names(tags[n], name) && LastTag(tags, name) == Some(tags[n][1]);
    }
  }

  /** The tag scan of the verifier: one pass, three locals. */
  method ScanTags(tags: seq<seq<string>>) returns (url: Option<string>, method_: Option<string>, payload: Option<string>)
    ensures url == LastTag(tags, "u") && method_ == LastTag(tags, "method") && payload == LastTag(tags, "payload")
  {
    url, method_, payload := None, None, None;
    for i := 0 to |tags|
      invariant url == LastTag(tags[..i], "u")
      invariant method_ == LastTag(tags[..i], "method")
      invariant payload == LastTag(tags[..i], "payload")
    {
      assert tags[..i + 1][..i] == tags[..i];
      var tag := tags[i];
      if |tag| < 2 {
        continue;
      }
      if tag[0] == "u" {
        url := Some(tag[1]);
      } else if tag[0] == "method" {
        method_ := Some(tag[1]);
      } else if tag[0] == "payload" {
        payload := Some(tag[1]);
      }
    }
    assert tags[..|tags|] == tags;
  }

  // ---- Verification ---------------------------------------------------------------

  function AbsDiff(a: U64, b: U64): U64 {
    if a >= b then a - b else b - a
  }

  predicate Fresh(createdAt: U64, now: U64, skew: U64) {
    AbsDiff(now, createdAt) <= skew
  }

  /** The checks on the signed tags, in order. */
  function CheckTags(c: Call, url: Option<string>, method_: Option<string>, payload: Option<string>): Option<AuthError> {
    if method_.None? then Some(MissingTag("method"))
    else if !EqIgnoreCase(method_.value, c.method_) then Some(MethodMismatch)
    else if url.None? then Some(MissingTag("u"))
    else if !c.urlMatches(url.value) then Some(UrlMismatch)
    else if payload.Some? && !EqIgnoreCase(payload.value, c.bodyDigest) then Some(PayloadMismatch)
    else None
  }

  function Verify(c: Call, skew: U64): Result<Event, AuthError> {
    match c.header
    case NoHeader => Err(MissingHeader)
    case OtherScheme => Err(BadScheme)
    case NotBase64 => Err(BadBase64)
    case NotAnEvent => Err(BadEvent)
    case Signed(e, signatureValid) =>
      if !signatureValid then Err(BadSignature)
      else if e.kind != NIP98_KIND then Err(WrongKind)
      else if !Fresh(e.createdAt, c.now, skew) then Err(StaleTimestamp)
      else
        match CheckTags(c, LastTag(e.tags, "u"), LastTag(e.tags, "method"), LastTag(e.tags, "payload"))
        case Some(error) => Err(error)
        case None => Ok(e)
  }

  function SaturatingAdd(a: U64, b: U64): U64 {
    Min(a + b, U64_MAX)
  }

  /** One second past the last moment the event can still be fresh. */
  function Expiry(createdAt: U64, skew: U64): U64 {
    SaturatingAdd(SaturatingAdd(createdAt, skew), 1)
  }

  datatype AuthState = AuthState(replay: Spent, buckets: Buckets)

  function AuthStep(cfg: RateConfig, skew: U64, s: AuthState, c: Call): (AuthState, Result<string, AuthError>) {
    match Verify(c, skew)
    case Err(error) => (s, Err(error))
    case Ok(e) =>
      var (buckets, allowed) := AllowStep(cfg, s.buckets, e.pubkey, c.instant);
      if !allowed then (AuthState(s.replay, buckets), Err(RateLimited))
      else
        var (replay, unspent) := CheckStep(s.replay, e.id, Expiry(e.createdAt, skew), c.now);
        (AuthState(replay, buckets), if unspent then Ok(e.pubkey) else Err(Replayed))
  }

  // ---- What a verified call is -----------------------------------------------------

  /** The same character, or the two cases of one ASCII letter. */
  predicate SameLetter(a: char, b: char) {
    || a == b
    || ('a' <= a <= 'z' && b as int == a as int - 32)
    || ('A' <= a <= 'Z' && b as int == a as int + 32)
  }

  predicate SameWord(a: string, b: string) {
    |a| == |b| && forall i :: 0 <= i < |a| ==> SameLetter(a[i], b[i])
  }

  /** Tag `i` is the last of its name that has a value, and this is the value. */
  predicate IsLast(tags: seq<seq<string>>, name: string, i: nat, value: string) {
    && i < |tags| && |tags[i]| >= 2 && tags[i][0] == name && tags[i][1] == value
    && forall j :: i < j < |tags| ==> !(|tags[j]| >= 2 && tags[j][0] == name)
  }

  ghost predicate HasLast(tags: seq<seq<string>>, name: string, value: string) {
    exists i: nat :: IsLast(tags, name, i, value)
  }

  predicate NoTag(tags: seq<seq<string>>, name: string) {
    forall i :: 0 <= i < |tags| ==> !(|tags[i]| >= 2 && tags[i][0] == name)
  }

  /** The call carries event `e`, signed by its key, of the right kind and fresh, for this
      method and URL, and for this body if it names one. */
  ghost predicate Acceptable(c: Call, skew: U64, e: Event) {
    && c.header == Signed(e, true)
    && e.kind == 27235
    && c.now <= e.createdAt + skew && e.createdAt <= c.now + skew
    && (exists v :: HasLast(e.tags, "method", v) && SameWord(v, c.method_))
    && (exists v :: HasLast(e.tags, "u", v) && c.urlMatches(v))
    && (NoTag(e.tags, "payload") || exists v :: HasLast(e.tags, "payload", v) && SameWord(v, c.bodyDigest))
  }

  lemma SameWordMeaning(a: string, b: string)
    ensures EqIgnoreCase(a, b) <==> SameWord(a, b)
  {
    if EqIgnoreCase(a, b) {
      forall i | 0 <= i < |a|
        ensures SameLetter(a[i], b[i])
      {
        assert UpperChar(a[i]) == UpperChar(b[i]);
      }
    }
    if SameWord(a, b) {
      forall i | 0 <= i < |a|
        ensures UpperChar(a[i]) == UpperChar(b[i])
      {
        assert SameLetter(a[i], b[i]);
      }
    }
  }

  lemma {:induction false} LastTagMeaning(tags: seq<seq<string>>, name: string, value: string)
    ensures HasLast(tags, name, value) <==> LastTag(tags, name) == Some(value)
    ensures NoTag(tags, name) <==> LastTag(tags, name).None?
  {
    LastTagWins(tags, name);
    if LastTag(tags, name) == Some(value) {
      var i :| 0 <= i < |tags| && Names(tags[i], name) && LastTag(tags, name) == Some(tags[i][1])
               && forall j :: i < j < |tags| ==> !Names(tags[j], name);
      assert IsLast(tags, name, i, value);
    }
    if HasLast(tags, name, value) {
      var i: nat :| IsLast(tags, name, i, value);
      assert Names(tags[i], name);
      var k :| 0 <= k < |tags| && Names(tags[k], name) && LastTag(tags, name) == Some(tags[k][1])
               && forall j :: k < j < |tags| ==> !Names(tags[j], name);
      assert i == k;
    }
  }

  /** The verifier's checks, in the order it makes them. */
  const CHECKS: seq<AuthError> :=
    [MissingHeader, BadScheme, BadBase64, BadEvent, BadSignature, WrongKind, StaleTimestamp, MissingTag("method"),
     MethodMismatch, MissingTag("u"), UrlMismatch, PayloadMismatch]

  /** The call passes the check that this error is for. */
  ghost predicate Passes(c: Call, skew: U64, check: AuthError) {
    match check
    case MissingHeader => c.header != NoHeader
    case BadScheme => c.header != OtherScheme
    case BadBase64 => c.header != NotBase64
    case BadEvent => c.header != NotAnEvent
    case BadSignature => c.header.Signed? && c.header.signatureValid
    case WrongKind => c.header.Signed? && c.header.event.kind == 27235
    case StaleTimestamp =>
      c.header.Signed? && c.now <= c.header.event.createdAt + skew && c.header.event.createdAt <= c.now + skew
    case MissingTag(name) => c.header.Signed? && !NoTag(c.header.event.tags, name)
    case MethodMismatch => c.header.Signed? && exists v :: HasLast(c.header.event.tags, "method", v) && SameWord(v, c.method_)
    case UrlMismatch => c.header.Signed? && exists v :: HasLast(c.header.event.tags, "u", v) && c.urlMatches(v)
    case PayloadMismatch =>
      c.header.Signed? &&
      (NoTag(c.header.event.tags, "payload") ||
       exists v :: HasLast(c.header.event.tags, "payload", v) && SameWord(v, c.bodyDigest))
    case _ => true
  }

  ghost predicate FailsFirst(c: Call, skew: U64, k: nat)
    requires k < |CHECKS|
  {
    !Passes(c, skew, CHECKS[k]) && forall j :: 0 <= j < k ==> Passes(c, skew, CHECKS[j])
  }

  /** How the verifier's own scan decides the three checks on tag values. */
  lemma TagChecks(c: Call, e: Event)
    ensures var m, u, p := LastTag(e.tags, "method"), LastTag(e.tags, "u"), LastTag(e.tags, "payload");
            && (NoTag(e.tags, "method") <==> m.None?) && (NoTag(e.tags, "u") <==> u.None?)
            && ((exists v :: HasLast(e.tags, "method", v) && SameWord(v, c.method_)) <==>
                  m.Some? && EqIgnoreCase(m.value, c.method_))
            && ((exists v :: HasLast(e.tags, "u", v) && c.urlMatches(v)) <==> u.Some? && c.urlMatches(u.value))
            && ((NoTag(e.tags, "payload") || exists v :: HasLast(e.tags, "payload", v) && SameWord(v, c.bodyDigest)) <==>
                  p.None? || EqIgnoreCase(p.value, c.bodyDigest))
  {
    hide LastTag, HasLast, NoTag, EqIgnoreCase, SameWord;
    LastTagIs(e.tags, "method");
    LastTagIs(e.tags, "u");
    LastTagIs(e.tags, "payload");
    var m, p := LastTag(e.tags, "method"), LastTag(e.tags, "payload");
    if m.Some? {
      SameWordMeaning(m.value, c.method_);
    }
    if p.Some? {
      SameWordMeaning(p.value, c.bodyDigest);
    }
  }

  lemma LastTagIs(tags: seq<seq<string>>, name: string)
    ensures NoTag(tags, name) <==> LastTag(tags, name).None?
    ensures forall v :: HasLast(tags, name, v) <==> LastTag(tags, name) == Some(v)
  {
    hide LastTag, HasLast, NoTag;
    forall v
      ensures HasLast(tags, name, v) <==> LastTag(tags, name) == Some(v)
    {
      LastTagMeaning(tags, name, v);
    }
    LastTagMeaning(tags, name, "");
  }

  /** A call is verified as event `e` exactly when it is acceptable as `e`. */
  lemma VerifiedExactlyWhen(c: Call, skew: U64, e: Event)
    ensures Verify(c, skew) == Ok(e) <==> Acceptable(c, skew, e)
  {
    TagChecks(c, e);
    hide LastTag, HasLast, NoTag, EqIgnoreCase, SameWord;
  }

  /** And each error is given exactly when its check is the first the call fails. */
  lemma RefusedByFirstFailure(c: Call, skew: U64, k: nat)
    requires k < |CHECKS|
    ensures Verify(c, skew) == Err(CHECKS[k]) <==> FailsFirst(c, skew, k)
  {
    var first := FirstFailure(c, skew);
    hide Passes, Verify;
    assert FailsFirst(c, skew, k) <==> first == k;
    if Verify(c, skew) == Err(CHECKS[k]) {
      ChecksDiffer(first, k);
    }
  }

  lemma ChecksDiffer(i: nat, j: nat)
    requires i < |CHECKS| && j < |CHECKS| && CHECKS[i] == CHECKS[j]
    ensures i == j
  {}

  /** The position of the first check a call fails, which the verifier answers with; past the
      end if it fails none. */
  lemma FirstFailure(c: Call, skew: U64) returns (k: nat)
    ensures k <= |CHECKS| && forall j :: 0 <= j < k ==> Passes(c, skew, CHECKS[j])
    ensures if k < |CHECKS| then !Passes(c, skew, CHECKS[k]) && Verify(c, skew) == Err(CHECKS[k]) else Verify(c, skew).Ok?
  {
    match c.header
    case NoHeader => k := 0;
    case OtherScheme => k := 1;
    case NotBase64 => k := 2;
    case NotAnEvent => k := 3;
    case Signed(e, signatureValid) =>
      TagChecks(c, e);
      hide LastTag, HasLast, NoTag, EqIgnoreCase, SameWord;
      var m, u := LastTag(e.tags, "method"), LastTag(e.tags, "u");
      k := if !signatureValid then 4
           else if e.kind != NIP98_KIND then 5
           else if !Fresh(e.createdAt, c.now, skew) then 6
           else if m.None? then 7
           else if !EqIgnoreCase(m.value, c.method_) then 8
           else if u.None? then 9
           else if !c.urlMatches(u.value) then 10
           else if Verify(c, skew).Err? then 11
           else 12;
  }

  method VerifyCall(c: Call, skew: U64) returns (r: Result<Event, AuthError>)
    ensures r == Verify(c, skew)
    ensures forall e :: r == Ok(e) <==> Acceptable(c, skew, e)
    ensures forall k :: 0 <= k < |CHECKS| ==> (r == Err(CHECKS[k]) <==> FailsFirst(c, skew, k))
    ensures r.Err? ==> exists k :: 0 <= k < |CHECKS| && r.error == CHECKS[k] && FailsFirst(c, skew, k)
  {
    ghost var first := FirstFailure(c, skew);
    forall e: Event
      ensures Verify(c, skew) == Ok(e) <==> Acceptable(c, skew, e)
    {
      VerifiedExactlyWhen(c, skew, e);
    }
    forall k | 0 <= k < |CHECKS|
      ensures Verify(c, skew) == Err(CHECKS[k]) <==> FailsFirst(c, skew, k)
    {
      RefusedByFirstFailure(c, skew, k);
    }
    hide Acceptable, FailsFirst;
    match c.header {
      case NoHeader => return Err(MissingHeader);
      case OtherScheme => return Err(BadScheme);
      case NotBase64 => return Err(BadBase64);
      case NotAnEvent => return Err(BadEvent);
      case Signed(e, signatureValid) =>
        if !signatureValid {
          return Err(BadSignature);
        }
        if e.kind != NIP98_KIND {
          return Err(WrongKind);
        }
        if AbsDiff(c.now, e.createdAt) > skew {
          return Err(StaleTimestamp);
        }
        var url, method_, payload := ScanTags(e.tags);
        var problem := CheckTags(c, url, method_, payload);
        if problem.Some? {
          return Err(problem.value);
        }
        return Ok(e);
    }
  }

  method Authenticate(guard: Guard, skew: U64, c: Call) returns (r: Result<string, AuthError>)
    modifies guard
    ensures (AuthState(guard.replay, guard.buckets), r) ==
            AuthStep(guard.cfg, skew, AuthState(old(guard.replay), old(guard.buckets)), c)
    ensures r.Ok? ==> exists e :: Acceptable(c, skew, e) && r.value == e.pubkey
    ensures r.Err? && r.error != RateLimited && r.error != Replayed ==>
              guard.replay == old(guard.replay) && guard.buckets == old(guard.buckets)
              && exists k :: 0 <= k < |CHECKS| && r.error == CHECKS[k] && FailsFirst(c, skew, k)
    ensures r == Err(RateLimited) || r == Err(Replayed) ==> exists e :: Acceptable(c, skew, e)
  {
    var verified := VerifyCall(c, skew);
    if verified.Err? {
      return Err(verified.error);
    }
    var e := verified.value;
    var allowed := guard.AllowRate(e.pubkey, c.instant);
    if !allowed {
      return Err(RateLimited);
    }
    var unspent := guard.CheckReplay(e.id, Expiry(e.createdAt, skew), c.now);
    if !unspent {
      return Err(Replayed);
    }
    r := Ok(e.pubkey);
  }
}
