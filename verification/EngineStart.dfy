/**
 * What a request means (internal/deploy/engine.go: Deploy, Rollback, Converge and
 * start): the digest it resolves to, when it is refused, and that the run it
 * starts carries exactly that.
 */
module EngineStart {
  import opened Options
  import opened Digests
  import opened Journals
  import opened Engine

  /** The request names its digest itself. */
  predicate NamesDigest(action: Action, want: string) {
    action == Deploy || (action == Rollback && want != "")
  }

  /** The mirror's file of a service reads as this manifest. */
  predicate Reads(cfg: Config, git: Git, service: string, e: Env, m: Manifest) {
    e.ok && git.synced && service in git.mirror && cfg.parse(git.mirror[service]) == Some(m)
  }

  /** The digest asked for: the named one, or the pin, or the newest other healthy receipt's. */
  ghost predicate Means(rows: seq<Row>, action: Action, service: string, want: string, pinned: string, digest: string) {
    if NamesDigest(action, want) then digest == want
    else if action == Converge then digest == pinned
    else exists id: nat :: NewestHealthy(rows, id, service, pinned) && rows[id].newDigest == digest
  }

  lemma ResolveMeans(rows: seq<Row>, action: Action, service: string, want: string, pinned: string)
    ensures match Resolve(rows, action, service, want, pinned)
            case None => forall digest :: !Means(rows, action, service, want, pinned, digest)
            case Some(digest) =>
              && Means(rows, action, service, want, pinned, digest)
              && forall other :: Means(rows, action, service, want, pinned, other) ==> other == digest
  {
    PreviousHealthyDigestIsNewest(rows, service, pinned);
  }

  /** Bytes with one occurrence of the old digest, and the same with the new one in its place. */
  ghost predicate Rewritten(raw: Bytes, pin: string, next: string, out: Bytes, i: int) {
    OccursAt(raw, pin, i) && out == raw[..i] + next + raw[i + |pin|..]
  }

  lemma SetDigestRewrites(raw: Bytes, pin: string, next: string) returns (i: int)
    requires SetDigest(raw, pin, next).Ok?
    ensures Rewritten(raw, pin, next, SetDigest(raw, pin, next).value, i)
    ensures IsDigest(pin) ==> OnlyAt(raw, pin, i)
  {
    if pin != "" { CountFromNone(raw, pin, 0); } else { assert OccursAt(raw, pin, 0); }
    IndexFromIsFirst(raw, pin, 0);
    i := IndexFrom(raw, pin, 0).value;
    if IsDigest(pin) { CountOneIsUnique(raw, pin); }
  }

  /**
   * A prepared request is the one made: of its action and service, for the
   * digest it named (a converge for the pin, a bare rollback for the newest
   * other healthy receipt), with the mirror's file to restore and, unless it is a
   * converge, that file with the pin's one window set to the digest to propose.
   */
  lemma PreparedIsAsked(cfg: Config, sh: Shared, action: Action, service: string, want: string, e: Env)
    requires Prepare(cfg, sh, action, service, want, e).Ok?
    ensures var ask := Prepare(cfg, sh, action, service, want, e).value;
            && ask.action == action && ask.service == service && IsDigest(ask.digest)
            && Get(sh.git.mirror, service) == Some(ask.raw)
            && cfg.parse(ask.raw).Some? && cfg.parse(ask.raw).value.digest == ask.oldDigest
            && Means(sh.rows, action, service, want, ask.oldDigest, ask.digest)
            && (action == Converge ==> ask.newContent == ask.raw)
            && (action != Converge ==>
                  && ask.digest != ask.oldDigest
                  && (exists i :: Rewritten(ask.raw, ask.oldDigest, ask.digest, ask.newContent, i))
                  && (IsDigest(ask.oldDigest) ==> exists i: nat :: OnlyAt(ask.raw, ask.oldDigest, i)))
  {
    var ask := Prepare(cfg, sh, action, service, want, e).value;
    ResolveMeans(sh.rows, action, service, want, ask.oldDigest);
    if action != Converge {
      var i := SetDigestRewrites(ask.raw, ask.oldDigest, ask.digest);
    }
  }

  /** There is a target and, unless it is the point to keep the pin, a change to propose. */
  ghost predicate CanStart(cfg: Config, sh: Shared, action: Action, service: string, want: string, e: Env,
                           m: Manifest, digest: string)
  {
    && Reads(cfg, sh.git, service, e, m) && Means(sh.rows, action, service, want, m.digest, digest) && IsDigest(digest)
    && (action != Converge ==> digest != m.digest && Count(sh.git.mirror[service], m.digest) == 1)
  }

  /**
   * A request is refused exactly when it cannot start, and then for this reason:
   * a named digest that is no pin, a manifest that cannot be read, nothing
   * healthy to go back to, a target that is no pin or is pinned already, or a pin
   * the file does not hold exactly once.
   */
  lemma RefusedIffItCannotStart(cfg: Config, sh: Shared, action: Action, service: string, want: string, e: Env)
    ensures Prepare(cfg, sh, action, service, want, e).Ok? <==>
              exists m, digest :: CanStart(cfg, sh, action, service, want, e, m, digest)
    ensures NamesDigest(action, want) && !IsDigest(want) ==> Prepare(cfg, sh, action, service, want, e) == Err(NotAPin)
    ensures Prepare(cfg, sh, action, service, want, e).Err? ==>
              match Prepare(cfg, sh, action, service, want, e).error
              case NotAPin =>
                || (NamesDigest(action, want) && !IsDigest(want))
                || (exists m, digest :: Reads(cfg, sh.git, service, e, m) && !IsDigest(digest)
                      && Means(sh.rows, action, service, want, m.digest, digest))
              case Unreadable => forall m :: !Reads(cfg, sh.git, service, e, m)
              case NoHealthyDeploy =>
                exists m :: Reads(cfg, sh.git, service, e, m)
                  && forall digest :: !Means(sh.rows, action, service, want, m.digest, digest)
              case AlreadyAtDigest =>
                exists m :: Reads(cfg, sh.git, service, e, m)
                  && Means(sh.rows, action, service, want, m.digest, m.digest)
              case NotOnce(count) =>
                count != 1
                && exists m :: Reads(cfg, sh.git, service, e, m) && count == Count(sh.git.mirror[service], m.digest)
  {
    if service in sh.git.mirror && cfg.parse(sh.git.mirror[service]).Some? && e.ok && sh.git.synced {
      var m := cfg.parse(sh.git.mirror[service]).value;
      assert Reads(cfg, sh.git, service, e, m);
      ResolveMeans(sh.rows, action, service, want, m.digest);
      var target := Resolve(sh.rows, action, service, want, m.digest);
      if target.Some? {
        assert CanStart(cfg, sh, action, service, want, e, m, target.value) <==>
               Prepare(cfg, sh, action, service, want, e).Ok?;
      }
    }
  }

  /** The entry a request can join: the service's, of its kind, for its very digest. */
  predicate Matches(pending: map<string, Pending>, ask: Ask, id: nat) {
    && ask.service in pending && pending[ask.service].id == id && pending[ask.service].digest == ask.digest
    && (pending[ask.service].action.Converge? <==> ask.action.Converge?)
  }

  /**
   * At the critical section a request joins the entry it matches and leaves
   * nothing; else it gets a row and a run of its own, both saying what was asked,
   * and the entry of its service unless one stands there already.
   */
  lemma RegisteredIsAsked(w: World, ask: Ask, recordOk: bool, now: int)
    ensures var w' := Register(w, ask, recordOk, now);
            && w'.asks == w.asks - multiset{ask} && w'.closed == w.closed && w'.up == w.up
            && w'.sh.git == w.sh.git && w'.sh.host == w.sh.host
            && w'.sh.q == w.sh.q.(pending := w'.sh.q.pending)
            && if !recordOk || exists id :: Matches(w.sh.q.pending, ask, id)
               then w'.runs == w.runs && w'.sh.rows == w.sh.rows && w'.sh.q.pending == w.sh.q.pending
               else
                 && w'.sh.rows == w.sh.rows + [Row(ask.service, ask.action, ask.oldDigest, ask.digest, 0, "", Detected,
                                                   now, None)]
                 && |w'.runs| == |w.runs| + 1 && w'.runs[..|w.runs|] == w.runs
                 && var (r, pending) := (w'.runs[|w.runs|], w'.sh.q.pending);
                    && r.req == Request(ask.action, ask.service, ask.oldDigest, ask.digest, ask.raw, ask.newContent, 0)
                    && r.at.pc == Begun && !r.at.undo && !r.at.holds && r.did.events == [] && r.did.calls == NoCalls
                    && (forall s :: s in w.sh.q.pending ==> Get(pending, s) == Some(w.sh.q.pending[s]))
                    && (forall s :: s in pending && s !in w.sh.q.pending ==> s == ask.service)
                    && (ask.service !in w.sh.q.pending ==>
                          Get(pending, ask.service) == Some(Pending(ask.action, ask.digest, |w.runs|)))
  {
    var joined := Joins(w.sh.q.pending, ask);
    if joined.Some? { assert Matches(w.sh.q.pending, ask, joined.value); }
  }

  /**
   * At the front of the queue everything is computed again from the mirror's file
   * as it is then: the restore point is that file, the proposal is it with its
   * pin's one window set to the digest asked for, and nothing is proposed when it
   * pins that digest already, cannot be read or does not hold its pin once.
   */
  lemma ProposesTheFileAsItIs(cfg: Config, sh: Shared, id: nat, r: Run, e: Env)
    requires r.at.pc.FrontRead?
    ensures var a := FrontStep(cfg, sh, id, r, e);
            && a.run.req.newDigest == r.req.newDigest && a.run.req.service == r.req.service
            && match a.run.at.pc
               case Opening =>
                 && exists m, i :: Reads(cfg, sh.git, r.req.service, e, m) && m.digest != r.req.newDigest
                      && a.run.req.originalRaw == sh.git.mirror[r.req.service] && a.run.req.oldDigest == m.digest
                      && Rewritten(a.run.req.originalRaw, m.digest, r.req.newDigest, a.run.req.newContent, i)
               case Inspect =>
                 exists m :: Reads(cfg, sh.git, r.req.service, e, m) && m.digest == r.req.newDigest
               case _ =>
                 && a.run.at.pc == Finishing(Failed)
                 && forall m :: Reads(cfg, sh.git, r.req.service, e, m) ==>
                      m.digest != r.req.newDigest && Count(sh.git.mirror[r.req.service], m.digest) != 1
  {
    match ReadManifest(cfg, sh.git, r.req.service, e)
    case None => {}
    case Some((m, raw)) =>
      assert Reads(cfg, sh.git, r.req.service, e, m);
      if m.digest != r.req.newDigest && SetDigest(raw, m.digest, r.req.newDigest).Ok? {
        var i := SetDigestRewrites(raw, m.digest, r.req.newDigest);
      }
  }
}
