/** What follows from the gates: signups never share anything, links are owned, second factors are asked for. */
module AuthResults {
  import opened Options
  import opened Text
  import opened Repo
  import opened Pending
  import opened AuthMachine
  import opened AuthInvariants
  import opened AuthRuns
  import opened AuthTheorems
  import opened AuthOutcomes
  import opened AuthGates

  /** The outcome of a request of the run, at its end. */
  lemma OutcomeIn(s: State, run: seq<Action>, k: nat) returns (user: UserId, org: OrgId)
    requires SucceededIn(s, run, k) && !run[k].StartCallback?
    ensures Outcome(Execute(s, run), Made(run[k]).value, user, org)
  {
    hide Outcome;
    hide Next;
    hide Enabled;
    hide ValidRun;
    hide Execute;
    hide Norm;
    RunSplit(s, run, k);
    StepAlong(s, run, k);
    SuccessMeansDone(s, run[..k], run[k], run[k + 1..]);
    user, org :| Outcome(Execute(s, run), Made(run[k]).value, user, org);
  }

  // ---------- Signups ----------

  lemma StartsFresh(s: State, a: Action)
    requires Enabled(s, a) && Made(a).Some?
    ensures a.rid !in s.procs
  {
  }

  /** From its start on, a request is being served. */
  lemma ServedFrom(s: State, run: seq<Action>, k: nat, l: nat)
    requires RunFrom(s, run) && k < l <= |run| && Made(run[k]).Some?
    ensures ServedAt(At(s, run, l), run[k].rid, Made(run[k]).value)
  {
    hide Inv;
    hide Grows;
    hide Next;
    hide Enabled;
    hide ValidRun;
    hide Execute;
    hide ServedAt;
    hide At;
    StepAlong(s, run, k);
    GrowsAlong(s, run, k + 1, l);
    StartServes(At(s, run, k), run[k]);
    AtFurther(s, run, k + 1, l);
    RunServes(At(s, run, k + 1), run[k + 1..][..l - k - 1], run[k].rid, Made(run[k]).value);
  }

  lemma RequestsDiffer(s: State, run: seq<Action>, k: nat, l: nat)
    requires RunFrom(s, run) && k < l < |run| && Made(run[k]).Some? && Made(run[l]).Some?
    ensures run[k].rid != run[l].rid
  {
    hide Next;
    hide Enabled;
    hide Execute;
    hide ValidRun;
    hide Served;
    hide At;
    ServedFrom(s, run, k, l);
    StepAlong(s, run, l);
    StartsFresh(At(s, run, l), run[l]);
  }

  lemma LoginWritten(s: State, a: Action, rid: nat)
    requires rid in s.procs && s.procs[rid].Signup? && s.procs[rid].su.SuCred?
    requires Inv(s) && Enabled(s, a) && PassesAt(s, a, rid, NewLogin)
    ensures var pc := s.procs[rid].su; var t := Next(s, a);
            && UserWith(s, pc.user, pc.req.email)
            && pc.user !in s.db.creds.Values && ToLower(pc.req.username) !in s.db.creds
            && ToLower(pc.req.username) in t.db.creds && t.db.creds[ToLower(pc.req.username)] == pc.user
  {
    hide TablesInv;
    hide ToLower;
    assert ProcInv(s, s.procs[rid]);
  }

  lemma SlugWritten(s: State, a: Action, rid: nat)
    requires rid in s.procs && s.procs[rid].Signup? && s.procs[rid].su.SuOrg?
    requires Inv(s) && Enabled(s, a) && PassesAt(s, a, rid, NewSlug)
    ensures var slug := s.procs[rid].su.req.slug;
            !SlugTaken(s.db.orgs, slug) && SlugTaken(Next(s, a).db.orgs, slug)
  {
    hide Inv;
    var slug := s.procs[rid].su.req.slug;
    var t := WithOrg(s, slug, s.procs[rid].su.user, a.o.newId);
    assert t.Some? && a.o.newId in t.value.db.orgs && t.value.db.orgs[a.o.newId].slug == slug;
  }

  lemma TakenStays(s: State, t: State, slug: string)
    requires Grows(s, t) && SlugTaken(s.db.orgs, slug)
    ensures SlugTaken(t.db.orgs, slug)
  {
  }

  /** Of two requests through the gate of slugs, the later one found the slug of the earlier one taken. */
  lemma SlugsApart(s: State, run: seq<Action>, i: nat, j: nat, a: nat, b: nat)
    requires RunFrom(s, run) && i < j < |run|
    requires PassesAt(At(s, run, i), run[i], a, NewSlug) && PassesAt(At(s, run, j), run[j], b, NewSlug)
    ensures At(s, run, i).procs[a].su.req.slug != At(s, run, j).procs[b].su.req.slug
  {
    hide Inv;
    hide Grows;
    hide Next;
    hide Enabled;
    hide PassesAt;
    hide SlugTaken;
    hide At;
    GateShape(At(s, run, i), run[i], a, NewSlug);
    GateShape(At(s, run, j), run[j], b, NewSlug);
    StepAlong(s, run, i);
    StepAlong(s, run, j);
    GrowsAlong(s, run, i, i + 1);
    GrowsAlong(s, run, i + 1, j);
    GrowsAlong(s, run, j, j);
    SlugWritten(At(s, run, i), run[i], a);
    SlugWritten(At(s, run, j), run[j], b);
    TakenStays(At(s, run, i + 1), At(s, run, j), At(s, run, i).procs[a].su.req.slug);
  }

  lemma GateShape(t: State, a: Action, rid: nat, g: Gate)
    requires PassesAt(t, a, rid, g) && (g == NewLogin || g == NewSlug)
    ensures rid in t.procs && t.procs[rid].Signup? && a.Advance? && a.rid == rid
    ensures if g == NewLogin then t.procs[rid].su.SuCred? else t.procs[rid].su.SuOrg?
    ensures RequestOf(t.procs[rid]) == Some(SignupOf(t.procs[rid].su.req))
  {
    hide LetThrough;
  }

  /** A user with a credential gets no second one, and no address is shared. */
  lemma LoginsApart(s: State, run: seq<Action>, i: nat, j: nat, a: nat, b: nat)
    requires RunFrom(s, run) && i < j < |run|
    requires PassesAt(At(s, run, i), run[i], a, NewLogin) && PassesAt(At(s, run, j), run[j], b, NewLogin)
    ensures var p, q := At(s, run, i).procs[a], At(s, run, j).procs[b];
            && p.Signup? && q.Signup? && p.su.req.email != q.su.req.email
            && ToLower(p.su.req.username) != ToLower(q.su.req.username)
  {
    hide Inv;
    hide Grows;
    hide Next;
    hide Enabled;
    hide PassesAt;
    hide ToLower;
    hide At;
    GateShape(At(s, run, i), run[i], a, NewLogin);
    GateShape(At(s, run, j), run[j], b, NewLogin);
    StepAlong(s, run, i);
    StepAlong(s, run, j);
    GrowsAlong(s, run, i, i + 1);
    GrowsAlong(s, run, i + 1, j);
    GrowsAlong(s, run, i, j);
    GrowsAlong(s, run, j, j);
    LoginWritten(At(s, run, i), run[i], a);
    LoginWritten(At(s, run, j), run[j], b);
    var p, q := At(s, run, i).procs[a].su, At(s, run, j).procs[b].su;
    HolderStays(At(s, run, i), At(s, run, j), p.user, q.user, p.req.email);
    CredsStay(At(s, run, i + 1), At(s, run, j), ToLower(p.req.username));
  }

  lemma HolderStays(s: State, t: State, user: UserId, other: UserId, email: string)
    requires Inv(t) && Grows(s, t) && UserWith(s, user, email)
    ensures UserWith(t, user, email) && (UserWith(t, other, email) ==> user == other)
  {
    hide ProcInv;
  }

  lemma CredsStay(s: State, t: State, username: string)
    requires Grows(s, t) && username in s.db.creds
    ensures username in t.db.creds && t.db.creds[username] == s.db.creds[username]
  {
  }

  /**
   Of any number of signups for one slug, for one address or for one login name, however they overlap, at
   most one is answered well.
   */
  lemma SignupsNeverShare(s: State, run: seq<Action>, k: nat, l: nat)
    requires SucceededIn(s, run, k) && SucceededIn(s, run, l) && k != l
    requires run[k].StartSignup? && run[l].StartSignup?
    ensures var p, q := Made(run[k]).value.signup, Made(run[l]).value.signup;
            p.slug != q.slug && p.email != q.email && ToLower(p.username) != ToLower(q.username)
  {
    hide At;
    hide RunFrom;
    hide Norm;
    hide ToLower;
    hide PassesAt;
    RidsDiffer(s, run, k, l);
    var i := NoSuccessWithoutChecks(s, run, k, NewSlug);
    var j := NoSuccessWithoutChecks(s, run, l, NewSlug);
    var m := NoSuccessWithoutChecks(s, run, k, NewLogin);
    var n := NoSuccessWithoutChecks(s, run, l, NewLogin);
    GateShape(At(s, run, i), run[i], run[k].rid, NewSlug);
    GateShape(At(s, run, j), run[j], run[l].rid, NewSlug);
    GateShape(At(s, run, m), run[m], run[k].rid, NewLogin);
    GateShape(At(s, run, n), run[n], run[l].rid, NewLogin);
    if i < j {
      SlugsApart(s, run, i, j, run[k].rid, run[l].rid);
    } else {
      SlugsApart(s, run, j, i, run[l].rid, run[k].rid);
    }
    if m < n {
      LoginsApart(s, run, m, n, run[k].rid, run[l].rid);
    } else {
      LoginsApart(s, run, n, m, run[l].rid, run[k].rid);
    }
  }

  lemma RidsDiffer(s: State, run: seq<Action>, k: nat, l: nat)
    requires SucceededIn(s, run, k) && SucceededIn(s, run, l) && k != l
    ensures run[k].rid != run[l].rid
  {
    if k < l {
      RequestsDiffer(s, run, k, l);
    } else {
      RequestsDiffer(s, run, l, k);
    }
  }

  // ---------- Links ----------

  /** A provider that has given one identity with one address only. */
  ghost predicate OneAddress(t: State, provider: string, subject: string) {
    forall c, d |
      && c in t.given && d in t.given
      && c.provider == d.provider == provider && c.subject == d.subject == subject
      :: Norm(c.raw) == Norm(d.raw)
  }

  /**
   Who was told that they linked an identity owns it, if it was not linked before the run and its provider
   gave it with one address throughout.
   */
  lemma {:induction false} OneAddressOneOwner(s: State, run: seq<Action>, k: nat)
    requires SucceededIn(s, run, k) && run[k].StartLink?
    requires var t := Execute(s, run);
             && run[k].token in t.asserted
             && var c := t.asserted[run[k].token];
                (c.provider, c.subject) !in s.db.identities && OneAddress(t, c.provider, c.subject)
    ensures var t := Execute(s, run); var c := t.asserted[run[k].token]; var login := Norm(run[k].email);
            login in t.db.creds && LinkedTo(t, c.provider, c.subject, t.db.creds[login])
  {
    hide Norm;
    hide ValidRun;
    hide Execute;
    var user, org := OutcomeIn(s, run, k);
    ReachedInv(s, run);
    OwnerHoldsAddress(Execute(s, run), run[k].token, user);
  }

  lemma OwnerHoldsAddress(t: State, token: nat, user: UserId)
    requires Inv(t) && token in t.asserted
    requires var c := t.asserted[token];
             && (c.provider, c.subject) in t.db.identities && (c.provider, c.subject) !in t.seeded
             && OneAddress(t, c.provider, c.subject) && UserWith(t, user, Norm(c.raw))
    ensures var c := t.asserted[token]; LinkedTo(t, c.provider, c.subject, user)
  {
    hide Norm;
    hide ProcInv;
    var c := t.asserted[token];
    var owner := t.db.identities[(c.provider, c.subject)];
    assert ClaimedIn(t.asserted, c.provider, c.subject, t.db.users[owner].email);
    var other :| HandedOut(t.asserted, other, c.provider, c.subject, t.db.users[owner].email);
    assert c in t.asserted.Values && t.asserted[other] in t.asserted.Values;
    assert t.db.users[owner].email == Norm(c.raw);
  }

  /** The write of a link: it takes exactly if nobody else has the identity. */
  lemma LinkWritten(s: State, a: Action, rid: nat)
    requires rid in s.procs && s.procs[rid].Link? && s.procs[rid].ln.LnLink?
    requires Inv(s) && Enabled(s, a) && PassesAt(s, a, rid, LinkWrite)
    ensures var pc := s.procs[rid].ln; var k := (pc.link.provider, pc.link.subject); var t := Next(s, a);
            && LinkUser(s, pc.req, pc.link, pc.user) && k in t.db.identities
            && (t.db.identities[k] == pc.user <==> k !in s.db.identities || s.db.identities[k] == pc.user)
  {
    hide TablesInv;
    hide Norm;
    assert ProcInv(s, s.procs[rid]);
  }

  lemma LinkShape(t: State, a: Action, rid: nat)
    requires PassesAt(t, a, rid, LinkWrite)
    ensures rid in t.procs && t.procs[rid].Link? && t.procs[rid].ln.LnLink?
    ensures RequestOf(t.procs[rid]) == Some(LinkOf(t.procs[rid].ln.req))
  {
    hide LetThrough;
  }

  lemma LinkStays(s: State, t: State, req: LinkReq, link: PendingLink, user: UserId)
    requires Grows(s, t) && LinkUser(s, req, link, user)
    ensures LinkUser(t, req, link, user)
    ensures forall k | k in s.db.identities :: k in t.db.identities && t.db.identities[k] == s.db.identities[k]
  {
    hide Norm;
  }

  lemma TokenFits(t: State, req: LinkReq, link: PendingLink, user: UserId)
    requires LinkUser(t, req, link, user)
    ensures req.token in t.asserted && req.email in t.db.creds && t.db.creds[req.email] == user && user in t.db.users
    ensures t.asserted[req.token].provider == link.provider && t.asserted[req.token].subject == link.subject
  {
  }

  /**
   In general: who was told that they linked an identity owns it exactly if, at the instant of the write, it
   was linked to nobody else.
   */
  lemma LinkIsTheirsIff(s: State, run: seq<Action>, k: nat) returns (i: nat)
    requires SucceededIn(s, run, k) && run[k].StartLink?
    ensures k < i < |run| && PassesAt(At(s, run, i), run[i], run[k].rid, LinkWrite)
    ensures var t := Execute(s, run); var login := Norm(run[k].email);
            && run[k].token in t.asserted && login in t.db.creds
            && var c, user, before := t.asserted[run[k].token], t.db.creds[login], At(s, run, i).db.identities;
               LinkedTo(t, c.provider, c.subject, user)
               <==> (c.provider, c.subject) !in before || before[(c.provider, c.subject)] == user
  {
    hide Inv;
    hide Grows;
    hide Next;
    hide Enabled;
    hide PassesAt;
    hide LinkUser;
    hide At;
    hide Norm;
    i := NoSuccessWithoutChecks(s, run, k, LinkWrite);
    var before, after := At(s, run, i), At(s, run, i + 1);
    LinkShape(before, run[i], run[k].rid);
    StepAlong(s, run, i);
    GrowsAlong(s, run, i, i);
    GrowsAlong(s, run, i, |run|);
    GrowsAlong(s, run, i + 1, |run|);
    AtEnd(s, run);
    LinkWritten(before, run[i], run[k].rid);
    var pc := before.procs[run[k].rid].ln;
    LinkStays(before, Execute(s, run), pc.req, pc.link, pc.user);
    LinkKept(after, Execute(s, run), (pc.link.provider, pc.link.subject));
    TokenFits(Execute(s, run), pc.req, pc.link, pc.user);
  }

  lemma {:induction false} AtEnd(s: State, run: seq<Action>)
    requires RunFrom(s, run)
    ensures At(s, run, |run|) == Execute(s, run)
  {
    assert run[..|run|] == run;
  }

  lemma LinkKept(s: State, t: State, k: (string, string))
    requires Grows(s, t) && k in s.db.identities
    ensures k in t.db.identities && t.db.identities[k] == s.db.identities[k]
  {
  }

  // ---------- Second factors ----------

  /** Action `i` is the step at which this request's code was accepted, for the user's secret. */
  ghost predicate CodeAccepted(t: State, a: Action, rid: nat, user: UserId) {
    && a.Advance? && a.rid == rid && rid in t.procs && a.o.call == Fine && a.o.pass && user in t.db.totp
    && match t.procs[rid]
       case Login(LiCode(_, u)) => u == user
       case Link(LnCode(_, _, u, _)) => u == user
       case _ => false
  }

  /** Action `i` is this request's question whether the user is enrolled, and it failed. */
  ghost predicate LookupFailed(t: State, a: Action, rid: nat, user: UserId) {
    && a.Advance? && a.rid == rid && rid in t.procs && a.o.call != Fine
    && match t.procs[rid]
       case Login(LiHasTotp(_, u)) => u == user
       case Link(LnHasTotp(_, _, u, _)) => u == user
       case _ => false
  }

  /** The credential a login or a request to link signs in with. */
  function LoginName(a: Action): string
    requires a.StartLogin? || a.StartLink?
  {
    if a.StartLogin? then ToLower(Norm(a.username)) else Norm(a.email)
  }

  lemma FactorPassed(t: State, a: Action, rid: nat, login: string)
    requires Inv(t) && PassesAt(t, a, rid, SecondFactor)
    requires match RequestOf(t.procs[rid])
             case Some(LoginOf(name)) => login == ToLower(name)
             case Some(LinkOf(req)) => login == req.email
             case _ => false
    ensures login in t.db.creds
    ensures var user := t.db.creds[login];
            user in t.db.totp ==> CodeAccepted(t, a, rid, user) || LookupFailed(t, a, rid, user)
  {
    hide TablesInv;
    hide HandedOut;
    assert ProcInv(t, t.procs[rid]);
  }

  /**
   An enrolled user who logged in or linked an identity either gave a code that was accepted, or the question
   whether there is a second factor failed: that error counts as "no".
   */
  lemma EnrolledGaveCodeOrLookupFailed(s: State, run: seq<Action>, k: nat) returns (i: nat)
    requires SucceededIn(s, run, k) && (run[k].StartLogin? || run[k].StartLink?)
    requires var t := Execute(s, run);
             LoginName(run[k]) in t.db.creds ==> t.db.creds[LoginName(run[k])] in At(s, run, k).db.totp
    ensures var t := Execute(s, run); LoginName(run[k]) in t.db.creds
    ensures var user := Execute(s, run).db.creds[LoginName(run[k])];
            k < i < |run| && (CodeAccepted(At(s, run, i), run[i], run[k].rid, user)
                              || LookupFailed(At(s, run, i), run[i], run[k].rid, user))
  {
    hide Inv;
    hide PassesAt;
    hide CodeAccepted;
    hide LookupFailed;
    hide At;
    hide Norm;
    hide ToLower;
    hide Next;
    hide Enabled;
    i := NoSuccessWithoutChecks(s, run, k, SecondFactor);
    GrowsAlong(s, run, i, i);
    GrowsAlong(s, run, i, |run|);
    GrowsAlong(s, run, k, i);
    AtEnd(s, run);
    FactorPassed(At(s, run, i), run[i], run[k].rid, LoginName(run[k]));
    CredsStay(At(s, run, i), Execute(s, run), LoginName(run[k]));
  }

  /** The second factor is behind the request: it can meet the question no more. */
  predicate PastFactor(p: Proc) {
    match p
    case Login(pc) => pc.LiPick? || pc.LiSession?
    case Link(pc) => !pc.LnStart? && !pc.LnCred? && !pc.LnHasTotp? && !pc.LnCode?
    case Done(_) => true
    case _ => false
  }

  predicate PastIn(s: State, rid: nat) { rid in s.procs && PastFactor(s.procs[rid]) }

  lemma LoginStaysPast(s: State, rid: nat, pc: LoginPc, o: Oracle)
    requires PastFactor(Login(pc))
    ensures PastIn(AdvanceLogin(s, rid, pc, o), rid)
  {
    hide WithSession;
    hide IsPick;
  }

  lemma LinkStaysPast(s: State, rid: nat, pc: LinkPc, o: Oracle)
    requires PastFactor(Link(pc))
    ensures PastIn(AdvanceLink(s, rid, pc, o), rid)
  {
    hide WithSession;
    hide IsPick;
    hide LinkIdentity;
    hide Norm;
  }

  lemma StaysPast(s: State, a: Action, rid: nat)
    requires Inv(s) && Enabled(s, a) && PastIn(s, rid)
    ensures PastIn(Next(s, a), rid)
  {
    hide Inv;
    hide AdvanceLogin;
    hide AdvanceLink;
    if a.Advance? && a.rid == rid {
      match s.procs[rid]
      case Login(pc) => LoginStaysPast(s, rid, pc, a.o);
      case Link(pc) => LinkStaysPast(s, rid, pc, a.o);
    } else if a.Advance? {
      OthersStand(s, a.rid, a.o, rid);
    }
  }

  lemma {:induction false} PastAlong(s: State, run: seq<Action>, i: nat, j: nat, rid: nat)
    requires RunFrom(s, run) && i <= j <= |run| && PastIn(At(s, run, i), rid)
    ensures PastIn(At(s, run, j), rid)
    decreases j
  {
    hide Inv;
    hide Grows;
    hide Next;
    hide Enabled;
    hide PastIn;
    hide At;
    if i < j {
      PastAlong(s, run, i, j - 1, rid);
      GrowsAlong(s, run, j - 1, j - 1);
      StepAlong(s, run, j - 1);
      StaysPast(At(s, run, j - 1), run[j - 1], rid);
    }
  }

  /** Either event meets a request before the factor and leaves it behind. */
  lemma FactorLeftBehind(t: State, a: Action, rid: nat, user: UserId)
    requires Enabled(t, a) && (CodeAccepted(t, a, rid, user) || LookupFailed(t, a, rid, user))
    ensures !PastIn(t, rid) && PastIn(Next(t, a), rid)
  {
  }

  lemma EventsDiffer(t: State, a: Action, rid: nat, one: UserId, other: UserId)
    ensures !CodeAccepted(t, a, rid, one) || !LookupFailed(t, a, rid, other)
  {
  }

  /** No request meets both events. */
  lemma OneFactorEvent(s: State, run: seq<Action>, i: nat, j: nat, rid: nat, one: UserId, other: UserId)
    requires RunFrom(s, run) && i < |run| && j < |run|
    requires CodeAccepted(At(s, run, i), run[i], rid, one)
    ensures !LookupFailed(At(s, run, j), run[j], rid, other)
  {
    hide CodeAccepted;
    hide LookupFailed;
    hide PastIn;
    hide Next;
    hide Enabled;
    hide At;
    StepAlong(s, run, i);
    StepAlong(s, run, j);
    if LookupFailed(At(s, run, j), run[j], rid, other) {
      FactorLeftBehind(At(s, run, i), run[i], rid, one);
      FactorLeftBehind(At(s, run, j), run[j], rid, other);
      if i < j {
        PastAlong(s, run, i + 1, j, rid);
      } else if j < i {
        PastAlong(s, run, j + 1, i, rid);
      } else {
        EventsDiffer(At(s, run, i), run[i], rid, one, other);
      }
    }
  }

  ghost predicate CodeAcceptedIn(s: State, run: seq<Action>, rid: nat, user: UserId)
    requires RunFrom(s, run)
  {
    exists i | 0 <= i < |run| :: CodeAccepted(At(s, run, i), run[i], rid, user)
  }

  ghost predicate LookupFailedIn(s: State, run: seq<Action>, rid: nat, user: UserId)
    requires RunFrom(s, run)
  {
    exists i | 0 <= i < |run| :: LookupFailed(At(s, run, i), run[i], rid, user)
  }

  /**
   A code is asked of an enrolled user exactly if the lookup works: of the logins and requests to link that are
   answered well, those have had a code accepted whose question for a second factor did not fail.
   */
  lemma {:induction false} CodeAcceptedIff(s: State, run: seq<Action>, k: nat)
    requires SucceededIn(s, run, k) && (run[k].StartLogin? || run[k].StartLink?)
    requires var t := Execute(s, run);
             LoginName(run[k]) in t.db.creds ==> t.db.creds[LoginName(run[k])] in At(s, run, k).db.totp
    ensures LoginName(run[k]) in Execute(s, run).db.creds
    ensures var user := Execute(s, run).db.creds[LoginName(run[k])];
            CodeAcceptedIn(s, run, run[k].rid, user) <==> !LookupFailedIn(s, run, run[k].rid, user)
  {
    hide CodeAccepted;
    hide LookupFailed;
    hide At;
    var i := EnrolledGaveCodeOrLookupFailed(s, run, k);
    var user := Execute(s, run).db.creds[LoginName(run[k])];
    if CodeAcceptedIn(s, run, run[k].rid, user) {
      var i :| 0 <= i < |run| && CodeAccepted(At(s, run, i), run[i], run[k].rid, user);
      forall j | 0 <= j < |run| ensures !LookupFailed(At(s, run, j), run[j], run[k].rid, user) {
        OneFactorEvent(s, run, i, j, run[k].rid, user, user);
      }
    }
  }
}
