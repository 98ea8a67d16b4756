/** The refresh-token table: issue at login, rotation, revocation. A user's or token's index in
  * its table is its id; a token is known by the hash of what its holder presents. */
module RefreshTokens {
  import opened Sums

  datatype Token = Token(user: nat, hash: string, expiresAt: int, revoked: bool, revokedAt: Option<int>)

  /** The users' statuses and the tokens. */
  datatype Store = Store(statuses: seq<string>, tokens: seq<Token>)

  datatype Action =
    | AddUser
    | Login(user: nat, credentialsHold: bool, newHash: string, lifetime: int, now: int)
    | Refresh(presented: string, newHash: string, lifetime: int, now: int)
    | Logout(presented: string, now: int)
    | ChangePassword(user: nat, accepted: bool, now: int)
    | ResetPassword(user: nat, accepted: bool, now: int)
    | Suspend(user: nat, now: int)
    | SetStatus(user: nat, status: string)
    | Cleanup(now: int)

  // ---- One step ----

  function WithHash(hash: string): Token -> bool { (t: Token) => t.hash == hash }

  function Lookup(s: Store, hash: string): (i: nat)
    ensures i <= |s.tokens|
  {
    First(s.tokens, WithHash(hash), 0)
  }

  function RevokeRow(t: Token, now: int): Token {
    t.(revoked := true, revokedAt := Some(now))
  }

  function Revoke(s: Store, i: nat, now: int): Store
    requires i < |s.tokens|
  {
    s.(tokens := s.tokens[i := RevokeRow(s.tokens[i], now)])
  }

  function PurgeRow(t: Token, user: nat, now: int): Token {
    if t.user == user && !t.revoked then RevokeRow(t, now) else t
  }

  function CleanRow(t: Token, now: int): Token {
    if !t.revoked && t.expiresAt < now then RevokeRow(t, now) else t
  }

  function MapTokens(tokens: seq<Token>, f: Token -> Token): seq<Token> {
    seq(|tokens|, i requires 0 <= i < |tokens| => f(tokens[i]))
  }

  function RevokeAll(s: Store, user: nat, now: int): Store {
    s.(tokens := MapTokens(s.tokens, (t: Token) => PurgeRow(t, user, now)))
  }

  function CleanupExpired(s: Store, now: int): Store {
    s.(tokens := MapTokens(s.tokens, (t: Token) => CleanRow(t, now)))
  }

  predicate LoginSucceeds(s: Store, user: nat, credentialsHold: bool) {
    user < |s.statuses| && s.statuses[user] != "suspended" && credentialsHold
  }

  /** The token a refresh accepts: stored, unrevoked, unexpired, of an active user. */
  predicate RefreshSucceeds(s: Store, presented: string, now: int) {
    var i := Lookup(s, presented);
    && i < |s.tokens| && !s.tokens[i].revoked && s.tokens[i].expiresAt >= now
    && s.tokens[i].user < |s.statuses| && s.statuses[s.tokens[i].user] == "active"
  }

  function Issue(s: Store, user: nat, hash: string, lifetime: int, now: int): Store {
    s.(tokens := s.tokens + [Token(user, hash, now + lifetime, false, None)])
  }

  function Step(s: Store, a: Action): Store {
    match a
    case AddUser => s.(statuses := s.statuses + ["active"])
    case Login(user, credentialsHold, newHash, lifetime, now) =>
      if LoginSucceeds(s, user, credentialsHold) then Issue(s, user, newHash, lifetime, now) else s
    case Refresh(presented, newHash, lifetime, now) =>
      if RefreshSucceeds(s, presented, now)
      then Issue(Revoke(s, Lookup(s, presented), now), s.tokens[Lookup(s, presented)].user, newHash, lifetime, now) else s
    case Logout(presented, now) =>
      if Lookup(s, presented) < |s.tokens| && !s.tokens[Lookup(s, presented)].revoked then Revoke(s, Lookup(s, presented), now) else s
    case ChangePassword(user, accepted, now) => if user < |s.statuses| && accepted then RevokeAll(s, user, now) else s
    case ResetPassword(user, accepted, now) => if user < |s.statuses| && accepted then RevokeAll(s, user, now) else s
    case Suspend(user, now) =>
      if user < |s.statuses| then RevokeAll(s.(statuses := s.statuses[user := "suspended"]), user, now) else s
    case SetStatus(user, status) => if user < |s.statuses| then s.(statuses := s.statuses[user := status]) else s
    case Cleanup(now) => CleanupExpired(s, now)
  }

  // ---- Runs, with what happened so far ----

  /** Beside the tables: the login each token descends from, the number of successful logins, and
    * the tokens accepted for refresh, in order. */
  datatype History = History(store: Store, chains: seq<nat>, logins: nat, accepted: seq<nat>)

  function Track(h: History, a: Action): History {
    var store := Step(h.store, a);
    if a.Login? && LoginSucceeds(h.store, a.user, a.credentialsHold) then
      History(store, h.chains + [h.logins], h.logins + 1, h.accepted)
    else if a.Refresh? && RefreshSucceeds(h.store, a.presented, a.now) then
      var i := Lookup(h.store, a.presented);
      History(store, h.chains + [if i < |h.chains| then h.chains[i] else 0], h.logins, h.accepted + [i])
    else h.(store := store)
  }

  function Run(h: History, actions: seq<Action>): History {
    if actions == [] then h else Track(Run(h, actions[..|actions| - 1]), actions[|actions| - 1])
  }

  const START := History(Store([], []), [], 0, [])

  /** A newly drawn token hash is not one already stored. */
  predicate Fresh(s: Store, a: Action) {
    (a.Login? ==> Lookup(s, a.newHash) == |s.tokens|) && (a.Refresh? ==> Lookup(s, a.newHash) == |s.tokens|)
  }

  ghost predicate FreshRun(h: History, actions: seq<Action>) {
    forall k :: 0 <= k < |actions| ==> Fresh(Run(h, actions[..k]).store, actions[k])
  }

  // ---- What every run keeps ----

  ghost predicate Sound(h: History) {
    && |h.chains| == |h.store.tokens| == h.logins + |h.accepted|
    && DistinctHashes(h.store.tokens) && ChainsHold(h) && AcceptedOnce(h)
  }

  ghost predicate DistinctHashes(tokens: seq<Token>) {
    forall i, j :: 0 <= i < j < |tokens| ==> tokens[i].hash != tokens[j].hash
  }

  /** A chain stems from one login and is one user's; all of it but its last token was accepted. */
  ghost predicate ChainsHold(h: History)
    requires |h.chains| == |h.store.tokens|
  {
    && (forall i :: 0 <= i < |h.chains| ==> h.chains[i] < h.logins)
    && (forall i, j :: 0 <= i < j < |h.chains| && h.chains[i] == h.chains[j] ==>
          i in h.accepted && h.store.tokens[i].user == h.store.tokens[j].user)
  }

  /** Accepted tokens are revoked, and none was accepted twice. */
  ghost predicate AcceptedOnce(h: History) {
    && (forall k :: 0 <= k < |h.accepted| ==> h.accepted[k] < |h.store.tokens| && h.store.tokens[h.accepted[k]].revoked)
    && (forall k, l :: 0 <= k < l < |h.accepted| ==> h.accepted[k] != h.accepted[l])
  }

  /** Rows of an old table as a later one shows them: same owner and hash, never unrevoked. */
  ghost predicate Ages(a: seq<Token>, b: seq<Token>) {
    && |a| <= |b|
    && forall i :: 0 <= i < |a| ==> b[i].user == a[i].user && b[i].hash == a[i].hash && (a[i].revoked ==> b[i].revoked)
  }

  lemma StepAges(s: Store, a: Action)
    ensures Ages(s.tokens, Step(s, a).tokens)
  {
  }

  lemma LookupFinds(s: Store, hash: string)
    ensures var i := Lookup(s, hash);
            (i < |s.tokens| ==> s.tokens[i].hash == hash) && forall j :: 0 <= j < i ==> s.tokens[j].hash != hash
  {
  }

  /** Steps that neither issue nor accept a token only revoke. */
  lemma QuietKeeps(h: History, store: Store)
    requires Sound(h) && Ages(h.store.tokens, store.tokens) && |store.tokens| == |h.store.tokens|
    ensures Sound(h.(store := store))
  {
  }

  lemma IssueKeepsHashes(s: Store, t: Store, user: nat, hash: string, lifetime: int, now: int)
    requires DistinctHashes(t.tokens) && |t.tokens| == |s.tokens| && Lookup(s, hash) == |s.tokens|
    requires forall i :: 0 <= i < |s.tokens| ==> t.tokens[i].hash == s.tokens[i].hash
    ensures DistinctHashes(Issue(t, user, hash, lifetime, now).tokens)
  {
    LookupFinds(s, hash);
  }

  lemma LoginKeeps(h: History, a: Action)
    requires Sound(h) && a.Login? && LoginSucceeds(h.store, a.user, a.credentialsHold) && Fresh(h.store, a)
    ensures Sound(Track(h, a))
  {
    IssueKeepsHashes(h.store, h.store, a.user, a.newHash, a.lifetime, a.now);
  }

  predicate Refreshes(h: History, a: Action) {
    a.Refresh? && RefreshSucceeds(h.store, a.presented, a.now) && Fresh(h.store, a)
  }

  lemma RefreshKeepsHashes(h: History, a: Action)
    requires Sound(h) && Refreshes(h, a)
    ensures DistinctHashes(Track(h, a).store.tokens)
  {
    var i := Lookup(h.store, a.presented);
    IssueKeepsHashes(h.store, Revoke(h.store, i, a.now), h.store.tokens[i].user, a.newHash, a.lifetime, a.now);
  }

  lemma RefreshKeepsAccepted(h: History, a: Action)
    requires Sound(h) && Refreshes(h, a)
    ensures AcceptedOnce(Track(h, a))
  {
    var i, t := Lookup(h.store, a.presented), Track(h, a);
    assert t.accepted[|h.accepted|] == i && forall k :: 0 <= k < |h.accepted| ==> t.accepted[k] == h.accepted[k];
  }

  lemma RefreshKeepsChains(h: History, a: Action)
    requires Sound(h) && Refreshes(h, a)
    ensures |Track(h, a).chains| == |Track(h, a).store.tokens| && ChainsHold(Track(h, a))
  {
    var i, t := Lookup(h.store, a.presented), Track(h, a);
    assert forall k :: k in h.accepted || k == i ==> k in t.accepted;
    assert forall j :: 0 <= j < |h.chains| && h.chains[j] == h.chains[i] && j != i ==> j < i && j in h.accepted;
  }

  lemma RefreshKeeps(h: History, a: Action)
    requires Sound(h) && Refreshes(h, a)
    ensures Sound(Track(h, a))
  {
    RefreshKeepsHashes(h, a);
    RefreshKeepsAccepted(h, a);
    RefreshKeepsChains(h, a);
  }

  lemma TrackKeeps(h: History, a: Action)
    requires Sound(h) && Fresh(h.store, a)
    ensures Sound(Track(h, a))
  {
    if a.Login? && LoginSucceeds(h.store, a.user, a.credentialsHold) {
      LoginKeeps(h, a);
    } else if a.Refresh? && RefreshSucceeds(h.store, a.presented, a.now) {
      RefreshKeeps(h, a);
    } else {
      StepAges(h.store, a);
      QuietKeeps(h, Step(h.store, a));
    }
  }

  /** In every reachable state: every token stems from a login or an accepted refresh; a chain is
    * one user's, and all of it but its last token was accepted and is revoked; none was accepted
    * twice. */
  lemma {:induction false} RunsStaySound(actions: seq<Action>)
    requires FreshRun(START, actions)
    ensures Sound(Run(START, actions))
  {
    if actions != [] {
      var before := actions[..|actions| - 1];
      assert forall k :: 0 <= k <= |before| ==> before[..k] == actions[..k];
      RunsStaySound(before);
      TrackKeeps(Run(START, before), actions[|actions| - 1]);
    }
  }

  /** So of any two tokens that stem from one login, at most one is unrevoked. */
  lemma OneLiveToken(h: History, i: nat, j: nat)
    requires Sound(h) && i < j < |h.store.tokens| && h.chains[i] == h.chains[j]
    ensures h.store.tokens[i].revoked
  {
    var k :| 0 <= k < |h.accepted| && h.accepted[k] == i;
  }

  lemma OneLiveTokenPerLogin(actions: seq<Action>, h: History, i: nat, j: nat)
    requires FreshRun(START, actions) && h == Run(START, actions)
    requires i < j < |h.store.tokens| && j < |h.chains| && h.chains[i] == h.chains[j]
    ensures h.store.tokens[i].revoked
  {
    RunsStaySound(actions);
    OneLiveToken(h, i, j);
  }

  // ---- Purges ----

  predicate Purges(s: Store, a: Action, user: nat) {
    user < |s.statuses| &&
    match a
    case ChangePassword(u, accepted, now) => u == user && accepted
    case ResetPassword(u, accepted, now) => u == user && accepted
    case Suspend(u, now) => u == user
    case _ => false
  }

  /** Every token the user had among the first `n` is revoked. */
  predicate Purged(s: Store, user: nat, n: nat) {
    n <= |s.tokens| && forall i :: 0 <= i < n && s.tokens[i].user == user ==> s.tokens[i].revoked
  }

  lemma PurgeRevokes(s: Store, a: Action, user: nat)
    requires Purges(s, a, user)
    ensures Purged(Step(s, a), user, |s.tokens|)
  {
  }

  /** Once purged, whatever follows, none of the user's earlier tokens is accepted again. */
  lemma {:induction false} PurgedAreNeverAccepted(h: History, user: nat, n: nat, actions: seq<Action>)
    requires Purged(h.store, user, n)
    ensures var t := Run(h, actions);
            && Purged(t.store, user, n) && |h.accepted| <= |t.accepted|
            && forall k :: |h.accepted| <= k < |t.accepted| ==>
                 t.accepted[k] < |t.store.tokens| && (t.accepted[k] < n ==> t.store.tokens[t.accepted[k]].user != user)
  {
    if actions != [] {
      var last := |actions| - 1;
      PurgedAreNeverAccepted(h, user, n, actions[..last]);
      StepAges(Run(h, actions[..last]).store, actions[last]);
    }
  }

  /** A password change, a reset or a suspension ends every session the user had: over the rest of
    * any run, no token issued before it is accepted. */
  lemma PurgesEndSessions(h: History, a: Action, user: nat, rest: seq<Action>)
    requires Purges(h.store, a, user)
    ensures var t := Run(Track(h, a), rest);
            forall k :: |h.accepted| <= k < |t.accepted| ==>
              t.accepted[k] < |t.store.tokens|
              && (t.accepted[k] < |h.store.tokens| ==> t.store.tokens[t.accepted[k]].user != user)
  {
    PurgeRevokes(h.store, a, user);
    PurgedAreNeverAccepted(Track(h, a), user, |h.store.tokens|, rest);
  }

  /** Setting a status revokes nothing: after a suspension made that way and a return to active, a
    * token is accepted exactly when it was stored, unrevoked and unexpired before. */
  lemma StatusChangeOnlyPauses(s: Store, user: nat, presented: string, now: int)
    requires user < |s.statuses| && Lookup(s, presented) < |s.tokens| && s.tokens[Lookup(s, presented)].user == user
    ensures !RefreshSucceeds(Step(s, SetStatus(user, "suspended")), presented, now)
    ensures RefreshSucceeds(Step(Step(s, SetStatus(user, "suspended")), SetStatus(user, "active")), presented, now)
            <==> !s.tokens[Lookup(s, presented)].revoked && s.tokens[Lookup(s, presented)].expiresAt >= now
    ensures !RefreshSucceeds(Step(Step(s, Suspend(user, now)), SetStatus(user, "active")), presented, now)
  {
    var t := Step(Step(s, Suspend(user, now)), SetStatus(user, "active"));
    SameLookup(s, t, presented);
  }

  lemma SameLookup(s: Store, t: Store, hash: string)
    requires |s.tokens| == |t.tokens| && forall i :: 0 <= i < |s.tokens| ==> s.tokens[i].hash == t.tokens[i].hash
    ensures Lookup(s, hash) == Lookup(t, hash)
  {
    LookupFinds(s, hash);
    LookupFinds(t, hash);
  }

  /** The cleanup of expired tokens changes no later verdict: whatever is presented from then on is
    * accepted or not as it would have been without it. */
  lemma CleanupIsInvisible(s: Store, cleaned: int, presented: string, now: int)
    requires cleaned <= now
    ensures RefreshSucceeds(CleanupExpired(s, cleaned), presented, now) <==> RefreshSucceeds(s, presented, now)
  {
    SameLookup(s, CleanupExpired(s, cleaned), presented);
  }

  // ---- What logging in, refreshing and logging out give and take ----

  lemma AgesKeepsLookup(s: Store, t: Store, hash: string)
    requires Ages(s.tokens, t.tokens) && Lookup(s, hash) < |s.tokens|
    ensures Lookup(t, hash) == Lookup(s, hash)
  {
    LookupFinds(s, hash);
    LookupFinds(t, hash);
  }

  lemma LookupAppended(s: Store, t: Token)
    requires Lookup(s, t.hash) == |s.tokens|
    ensures Lookup(s.(tokens := s.tokens + [t]), t.hash) == |s.tokens|
  {
    var after := s.(tokens := s.tokens + [t]);
    LookupFinds(s, t.hash);
    LookupFinds(after, t.hash);
    assert after.tokens[|s.tokens|] == t && forall j :: 0 <= j < |s.tokens| ==> after.tokens[j] == s.tokens[j];
  }

  /** A login goes through exactly with good credentials of a known user who is not suspended. Its
    * token is then good for its lifetime, while the user is active; and otherwise nothing changes. */
  lemma LoginGives(s: Store, user: nat, credentialsHold: bool, newHash: string, lifetime: int, now: int, later: int)
    requires Lookup(s, newHash) == |s.tokens|
    ensures var after := Step(s, Login(user, credentialsHold, newHash, lifetime, now));
            if user < |s.statuses| && s.statuses[user] != "suspended" && credentialsHold
            then |after.tokens| == |s.tokens| + 1
                 && (RefreshSucceeds(after, newHash, later) <==> s.statuses[user] == "active" && later <= now + lifetime)
            else after == s
  {
    LookupAppended(s, Token(user, newHash, now + lifetime, false, None));
  }

  /** An accepted refresh hands the session over: the new token is good for its lifetime, and the
    * presented one never again. */
  lemma RefreshHandsOver(s: Store, presented: string, newHash: string, lifetime: int, now: int, later: int)
    requires Lookup(s, newHash) == |s.tokens| && RefreshSucceeds(s, presented, now)
    ensures var after := Step(s, Refresh(presented, newHash, lifetime, now));
            && (RefreshSucceeds(after, newHash, later) <==> later <= now + lifetime)
            && !RefreshSucceeds(after, presented, later)
            && after.tokens[|s.tokens|].user == s.tokens[Lookup(s, presented)].user
  {
    var i := Lookup(s, presented);
    var revoked, after := Revoke(s, i, now), Step(s, Refresh(presented, newHash, lifetime, now));
    SameLookup(s, revoked, newHash);
    LookupAppended(revoked, Token(s.tokens[i].user, newHash, now + lifetime, false, None));
    StepAges(s, Refresh(presented, newHash, lifetime, now));
    AgesKeepsLookup(s, after, presented);
    assert after.tokens[i].revoked;
  }

  /** Logging out ends the presented session and no other. */
  lemma LogoutEnds(s: Store, presented: string, now: int, other: string, later: int)
    ensures !RefreshSucceeds(Step(s, Logout(presented, now)), presented, later)
    ensures other != presented ==>
              (RefreshSucceeds(Step(s, Logout(presented, now)), other, later) <==> RefreshSucceeds(s, other, later))
  {
    SameLookup(s, Step(s, Logout(presented, now)), presented);
    SameLookup(s, Step(s, Logout(presented, now)), other);
    LookupFinds(s, presented);
    LookupFinds(s, other);
  }

  /** A revoked token is never accepted again, whatever follows. */
  lemma {:induction false} RevokedStaysOut(h: History, i: nat, actions: seq<Action>)
    requires i < |h.store.tokens| && h.store.tokens[i].revoked
    ensures var t := Run(h, actions);
            && Ages(h.store.tokens, t.store.tokens) && |h.accepted| <= |t.accepted|
            && forall k :: |h.accepted| <= k < |t.accepted| ==> t.accepted[k] != i
  {
    if actions != [] {
      var last := |actions| - 1;
      RevokedStaysOut(h, i, actions[..last]);
      StepAges(Run(h, actions[..last]).store, actions[last]);
    }
  }

  /** So a token that was presented to log out is refused over the rest of any run. */
  lemma LoggedOutStaysOut(h: History, presented: string, now: int, rest: seq<Action>, later: int)
    requires Lookup(h.store, presented) < |h.store.tokens|
    ensures !RefreshSucceeds(Run(Track(h, Logout(presented, now)), rest).store, presented, later)
  {
    var i, out := Lookup(h.store, presented), Track(h, Logout(presented, now));
    assert out.store.tokens[i].revoked;
    SameLookup(h.store, out.store, presented);
    RevokedStaysOut(out, i, rest);
    AgesKeepsLookup(out.store, Run(out, rest).store, presented);
  }

  // ---- The service over its tables ----

  class AuthService {
    const lifetime: int
    var statuses: seq<string>
    var tokens: seq<Token>

    function View(): Store
      reads this
    {
      Store(statuses, tokens)
    }

    constructor (lifetime: int)
      ensures View() == Store([], []) && this.lifetime == lifetime
    {
      this.lifetime := lifetime;
      statuses, tokens := [], [];
    }

    method Create(user: nat, hash: string, now: int)
      modifies this`tokens
      ensures View() == Issue(old(View()), user, hash, lifetime, now)
    {
      tokens := tokens + [Token(user, hash, now + lifetime, false, None)];
    }

    /** A bulk update of the token table; returns how many rows it changed. */
    method UpdateTokens(f: Token -> Token) returns (count: nat)
      modifies this`tokens
      ensures tokens == MapTokens(old(tokens), f)
      ensures count == Differing(old(tokens), tokens, |tokens|)
    {
      ghost var after := MapTokens(tokens, f);
      var updated := [];
      count := 0;
      for i := 0 to |tokens|
        invariant updated == after[..i] && count == Differing(tokens, after, i)
      {
        var row := f(tokens[i]);
        if row != tokens[i] {
          count := count + 1;
        }
        updated := updated + [row];
      }
      tokens := updated;
    }

    method RevokeAllForUser(user: nat, now: int) returns (count: nat)
      modifies this`tokens
      ensures View() == RevokeAll(old(View()), user, now)
      ensures count == Differing(old(tokens), tokens, |tokens|)
    {
      count := UpdateTokens((t: Token) => PurgeRow(t, user, now));
    }

    method CleanupTokens(now: int) returns (count: nat)
      modifies this`tokens
      ensures View() == CleanupExpired(old(View()), now)
      ensures count == Differing(old(tokens), tokens, |tokens|)
    {
      count := UpdateTokens((t: Token) => CleanRow(t, now));
    }

    method RevokeToken(i: nat, now: int)
      requires i < |tokens|
      modifies this`tokens
      ensures View() == Revoke(old(View()), i, now)
    {
      tokens := tokens[i := RevokeRow(tokens[i], now)];
    }

    method LogIn(user: nat, credentialsHold: bool, newHash: string, now: int) returns (issued: bool)
      modifies this`tokens
      ensures View() == Step(old(View()), Login(user, credentialsHold, newHash, lifetime, now))
      ensures issued <==> user < |statuses| && statuses[user] != "suspended" && credentialsHold
    {
      if user >= |statuses| || statuses[user] == "suspended" || !credentialsHold {
        return false;
      }
      Create(user, newHash, now);
      return true;
    }

    /** Rotation: the presented token is revoked and its successor stored. */
    method RefreshTokens(presented: string, newHash: string, now: int) returns (ok: bool)
      modifies this`tokens
      ensures View() == Step(old(View()), Refresh(presented, newHash, lifetime, now))
      ensures ok <==> RefreshSucceeds(old(View()), presented, now)
    {
      var i := Lookup(View(), presented);
      if i == |tokens| || tokens[i].revoked || tokens[i].expiresAt < now {
        return false;
      }
      var user := tokens[i].user;
      if user >= |statuses| || statuses[user] != "active" {
        return false;
      }
      RevokeToken(i, now);
      Create(user, newHash, now);
      return true;
    }

    method LogOut(presented: string, now: int)
      modifies this`tokens
      ensures View() == Step(old(View()), Logout(presented, now))
    {
      var i := Lookup(View(), presented);
      if i < |tokens| && !tokens[i].revoked {
        RevokeToken(i, now);
      }
    }

    method SetPassword(user: nat, accepted: bool, now: int)
      modifies this`tokens
      ensures View() == Step(old(View()), ChangePassword(user, accepted, now)) == Step(old(View()), ResetPassword(user, accepted, now))
    {
      if user >= |statuses| || !accepted {
        return;
      }
      var _ := RevokeAllForUser(user, now);
    }

    method SuspendUser(user: nat, now: int)
      modifies this`statuses, this`tokens
      ensures View() == Step(old(View()), Suspend(user, now))
    {
      if user >= |statuses| {
        return;
      }
      statuses := statuses[user := "suspended"];
      var _ := RevokeAllForUser(user, now);
    }

    /** Activation, and the administrator's status update: no token is touched. */
    method UpdateStatus(user: nat, status: string)
      modifies this`statuses
      ensures View() == Step(old(View()), SetStatus(user, status))
    {
      if user < |statuses| {
        statuses := statuses[user := status];
      }
    }
  }
}
