/** Admission of uploads by two levels of semaphores: one for the server, and one for each account that
    lives as long as a request holds on to it. The account map keeps weak references only. */
module UploadAdmission {
  import opened Prelude

  type Id = nat

  /** What a request in `acquire` waits for, or that it holds both permits. */
  datatype Stage = NeedsGlobal | NeedsAccount | Admitted

  /** A request and the account semaphore it holds a strong reference to. */
  datatype Request = Request(account: Id, semaphore: Id, stage: Stage)

  datatype Admission = Admission(
    requests: map<Id, Request>, accounts: map<Id, Id>, next: Id, globalLimit: nat, accountLimit: nat)

  function Start(globalLimit: nat, accountLimit: nat): Admission {
    Admission(map[], map[], 0, globalLimit, accountLimit)
  }

  /** The semaphore still has a strong reference. */
  predicate Live(s: Admission, semaphore: Id) {
    exists r :: r in s.requests && s.requests[r].semaphore == semaphore
  }

  function HoldsGlobal(s: Admission): set<Id> {
    set r | r in s.requests && s.requests[r].stage != NeedsGlobal
  }

  function HoldsOf(s: Admission, semaphore: Id): set<Id> {
    set r | r in s.requests && s.requests[r].stage == Admitted && s.requests[r].semaphore == semaphore
  }

  datatype Action =
    | Enter(account: Id)        // acquire: find or make the account's semaphore
    | TakeGlobal(request: Id)
    | TakeAccount(request: Id)
    | Leave(request: Id)        // timeout, cancellation or the end of an upload

  /** The map without the semaphores that nobody holds (`retain`). */
  function Retained(s: Admission): map<Id, Id> {
    map a | a in s.accounts && Live(s, s.accounts[a]) :: s.accounts[a]
  }

  function Step(s: Admission, action: Action): Admission {
    match action
    case Enter(account) =>
      var accounts := Retained(s);
      if account in accounts then
        s.(requests := s.requests[s.next := Request(account, accounts[account], NeedsGlobal)],
           accounts := accounts, next := s.next + 1)
      else
        s.(requests := s.requests[s.next := Request(account, s.next + 1, NeedsGlobal)],
           accounts := accounts[account := s.next + 1], next := s.next + 2)
    case TakeGlobal(r) =>
      if r in s.requests && s.requests[r].stage == NeedsGlobal && |HoldsGlobal(s)| < s.globalLimit
      then s.(requests := s.requests[r := s.requests[r].(stage := NeedsAccount)]) else s
    case TakeAccount(r) =>
      if && r in s.requests && s.requests[r].stage == NeedsAccount
         && |HoldsOf(s, s.requests[r].semaphore)| < s.accountLimit
      then s.(requests := s.requests[r := s.requests[r].(stage := Admitted)]) else s
    case Leave(r) => s.(requests := s.requests - {r})
  }

  function Run(globalLimit: nat, accountLimit: nat, actions: seq<Action>): Admission {
    if actions == [] then Start(globalLimit, accountLimit)
    else Step(Run(globalLimit, accountLimit, actions[..|actions| - 1]), actions[|actions| - 1])
  }

  /* ---- The invariant ---- */

  /** A request's semaphore is the one the map has for its account, and no other account's. */
  predicate Linked(s: Admission) {
    && (forall r :: r in s.requests ==>
          && r < s.next && s.requests[r].semaphore < s.next && s.requests[r].account in s.accounts
          && s.accounts[s.requests[r].account] == s.requests[r].semaphore)
    && (forall a :: a in s.accounts ==> s.accounts[a] < s.next)
    && (forall a, b :: a in s.accounts && b in s.accounts && a != b ==> s.accounts[a] != s.accounts[b])
  }

  ghost predicate Within(s: Admission) {
    |HoldsGlobal(s)| <= s.globalLimit && forall semaphore: Id :: |HoldsOf(s, semaphore)| <= s.accountLimit
  }

  ghost predicate Inv(s: Admission) {
    Linked(s) && Within(s)
  }

  /** The same holders, the same limits. */
  lemma WithinStill(s: Admission, s': Admission)
    requires Within(s) && s'.globalLimit == s.globalLimit && s'.accountLimit == s.accountLimit
    requires HoldsGlobal(s') == HoldsGlobal(s)
    requires forall semaphore: Id :: HoldsOf(s', semaphore) == HoldsOf(s, semaphore)
    ensures Within(s')
  {
    hide HoldsGlobal, HoldsOf;
  }

  lemma EnterLinks(s: Admission, account: Id)
    requires Linked(s)
    ensures Linked(Step(s, Enter(account)))
  {
    assert forall r :: r in s.requests ==> Live(s, s.requests[r].semaphore);
    hide Live;
  }

  lemma EnterKeeps(s: Admission, account: Id)
    requires Inv(s)
    ensures Inv(Step(s, Enter(account)))
  {
    assert s.next !in s.requests;
    var s' := Step(s, Enter(account));
    EnterLinks(s, account);
    EnterGlobal(s, account);
    forall semaphore: Id ensures HoldsOf(s', semaphore) == HoldsOf(s, semaphore) {
      EnterHolds(s, account, semaphore);
    }
    hide HoldsOf, HoldsGlobal, Retained, Linked, Live;
    WithinStill(s, s');
  }

  lemma EnterGlobal(s: Admission, account: Id)
    requires s.next !in s.requests
    ensures HoldsGlobal(Step(s, Enter(account))) == HoldsGlobal(s)
  {
    hide Retained;
  }

  lemma EnterHolds(s: Admission, account: Id, semaphore: Id)
    requires s.next !in s.requests
    ensures HoldsOf(Step(s, Enter(account)), semaphore) == HoldsOf(s, semaphore)
  {
    hide Retained;
  }

  lemma TakeGlobalKeeps(s: Admission, r: Id)
    requires Inv(s)
    ensures Inv(Step(s, TakeGlobal(r)))
  {
    var s' := Step(s, TakeGlobal(r));
    if s' != s {
      assert HoldsGlobal(s') == HoldsGlobal(s) + {r};
      forall semaphore: Id ensures |HoldsOf(s', semaphore)| <= s'.accountLimit {
        assert HoldsOf(s', semaphore) == HoldsOf(s, semaphore);
      }
    }
  }

  lemma TakeAccountHolds(s: Admission, r: Id, semaphore: Id)
    requires Within(s)
    ensures |HoldsOf(Step(s, TakeAccount(r)), semaphore)| <= s.accountLimit
  {
    var s' := Step(s, TakeAccount(r));
    if s' != s {
      if semaphore == s.requests[r].semaphore {
        assert HoldsOf(s', semaphore) == HoldsOf(s, semaphore) + {r};
      } else {
        assert HoldsOf(s', semaphore) == HoldsOf(s, semaphore);
      }
    }
  }

  lemma TakeAccountKeeps(s: Admission, r: Id)
    requires Inv(s)
    ensures Inv(Step(s, TakeAccount(r)))
  {
    var s' := Step(s, TakeAccount(r));
    assert HoldsGlobal(s') == HoldsGlobal(s);
    forall semaphore: Id ensures |HoldsOf(s', semaphore)| <= s'.accountLimit {
      TakeAccountHolds(s, r, semaphore);
    }
    hide HoldsOf, HoldsGlobal;
  }

  lemma LeaveKeeps(s: Admission, r: Id)
    requires Inv(s)
    ensures Inv(Step(s, Leave(r)))
  {
    var s' := Step(s, Leave(r));
    Fewer(HoldsGlobal(s'), HoldsGlobal(s));
    forall semaphore: Id ensures |HoldsOf(s', semaphore)| <= s'.accountLimit {
      Fewer(HoldsOf(s', semaphore), HoldsOf(s, semaphore));
    }
  }

  lemma StepKeeps(s: Admission, action: Action)
    requires Inv(s)
    ensures Inv(Step(s, action))
  {
    hide *;
    match action
    case Enter(account) => EnterKeeps(s, account);
    case TakeGlobal(r) => TakeGlobalKeeps(s, r);
    case TakeAccount(r) => TakeAccountKeeps(s, r);
    case Leave(r) => LeaveKeeps(s, r);
  }

  lemma {:induction false} RunKeeps(globalLimit: nat, accountLimit: nat, actions: seq<Action>)
    ensures Inv(Run(globalLimit, accountLimit, actions))
    ensures Run(globalLimit, accountLimit, actions).globalLimit == globalLimit
    ensures Run(globalLimit, accountLimit, actions).accountLimit == accountLimit
  {
    if actions == [] {
      var s := Start(globalLimit, accountLimit);
      assert HoldsGlobal(s) == {} && forall semaphore: Id :: HoldsOf(s, semaphore) == {};
    } else {
      var earlier := actions[..|actions| - 1];
      RunKeeps(globalLimit, accountLimit, earlier);
      StepKeeps(Run(globalLimit, accountLimit, earlier), actions[|actions| - 1]);
    }
  }

  /* ---- What it means ---- */

  function AdmittedOf(s: Admission, account: Id): set<Id> {
    set r | r in s.requests && s.requests[r].stage == Admitted && s.requests[r].account == account
  }

  function AllAdmitted(s: Admission): set<Id> {
    set r | r in s.requests && s.requests[r].stage == Admitted
  }

  /** In every reachable state an account has at most one live semaphore and no more uploads than its
      limit, and the server no more than its own. */
  lemma LimitsHold(globalLimit: nat, accountLimit: nat, actions: seq<Action>, account: Id)
    ensures var s := Run(globalLimit, accountLimit, actions);
            && (forall q, r :: q in s.requests && r in s.requests && s.requests[q].account == s.requests[r].account
                  ==> s.requests[q].semaphore == s.requests[r].semaphore)
            && |AdmittedOf(s, account)| <= accountLimit
            && |AllAdmitted(s)| <= globalLimit
  {
    RunKeeps(globalLimit, accountLimit, actions);
    var s := Run(globalLimit, accountLimit, actions);
    hide Run;
    Fewer(AllAdmitted(s), HoldsGlobal(s));
    if account in s.accounts {
      Fewer(AdmittedOf(s, account), HoldsOf(s, s.accounts[account]));
    } else {
      assert AdmittedOf(s, account) == {};
    }
  }

  /** The request with its next permit, which the semaphore it waits for gives it exactly if the limit
      holds afterwards. */
  function Granted(s: Admission, r: Id): Admission
    requires r in s.requests
  {
    s.(requests := s.requests[r := s.requests[r].(stage := if s.requests[r].stage == NeedsGlobal then NeedsAccount
                                                           else Admitted)])
  }

  lemma GlobalGrants(s: Admission, r: Id)
    requires Inv(s) && r in s.requests
    ensures Step(s, TakeGlobal(r))
            == if s.requests[r].stage == NeedsGlobal && |HoldsGlobal(Granted(s, r))| <= s.globalLimit
               then Granted(s, r) else s
  {
    if s.requests[r].stage == NeedsGlobal {
      assert HoldsGlobal(Granted(s, r)) == HoldsGlobal(s) + {r};
    }
  }

  lemma AccountGrants(s: Admission, r: Id)
    requires Inv(s) && r in s.requests
    ensures Step(s, TakeAccount(r))
            == if && s.requests[r].stage == NeedsAccount
                  && |HoldsOf(Granted(s, r), s.requests[r].semaphore)| <= s.accountLimit
               then Granted(s, r) else s
  {
    if s.requests[r].stage == NeedsAccount {
      assert HoldsOf(Granted(s, r), s.requests[r].semaphore) == HoldsOf(s, s.requests[r].semaphore) + {r};
    }
  }

  /** Its next permit moves a waiting request on. */
  predicate CanGoOn(s: Admission, r: Id)
    requires r in s.requests
  {
    || (s.requests[r].stage == NeedsGlobal && Step(s, TakeGlobal(r)).requests[r].stage == NeedsAccount)
    || (s.requests[r].stage == NeedsAccount && Step(s, TakeAccount(r)).requests[r].stage == Admitted)
  }

  /** No reachable state is deadlocked: while requests wait, one of them can go on, or an upload is
      under way that will leave. */
  lemma NoDeadlock(globalLimit: nat, accountLimit: nat, actions: seq<Action>, waiting: Id)
    requires globalLimit > 0 && accountLimit > 0
    requires waiting in Run(globalLimit, accountLimit, actions).requests
    ensures var s := Run(globalLimit, accountLimit, actions);
            || (exists r :: r in s.requests && s.requests[r].stage == Admitted)
            || (exists r :: r in s.requests && CanGoOn(s, r))
  {
    RunKeeps(globalLimit, accountLimit, actions);
    var s := Run(globalLimit, accountLimit, actions);
    hide Run;
    if forall r :: r in s.requests ==> s.requests[r].stage != Admitted {
      if r :| r in s.requests && s.requests[r].stage == NeedsAccount {
        assert HoldsOf(s, s.requests[r].semaphore) == {};
        assert CanGoOn(s, r);
      } else {
        assert HoldsGlobal(s) == {};
        assert CanGoOn(s, waiting);
      }
    }
  }

  /** Entering leaves a waiting request of the account, and in the map exactly the accounts that have a
      request: dead semaphores are forgotten, and no live one is. */
  lemma EnteringKeepsLive(s: Admission, account: Id)
    requires Inv(s)
    ensures var s' := Step(s, Enter(account));
            && s'.requests.Keys == s.requests.Keys + {s.next} && s.next !in s.requests
            && s'.requests[s.next].account == account && s'.requests[s.next].stage == NeedsGlobal
            && (forall r :: r in s.requests ==> s'.requests[r] == s.requests[r])
            && (forall a :: a in s'.accounts <==> exists r :: r in s'.requests && s'.requests[r].account == a)
  {
    EntersWaiting(s, account);
    EnterLinks(s, account);
    EnterRetains(s, account);
    hide Step, Retained, Live;
    var s' := Step(s, Enter(account));
    forall a | a in s'.accounts ensures exists r :: r in s'.requests && s'.requests[r].account == a {
      if a != account {
        var r :| r in s.requests && s.requests[r].account == a;
        assert s'.requests[r].account == a;
      }
    }
  }

  lemma EntersWaiting(s: Admission, account: Id)
    requires Linked(s)
    ensures var s' := Step(s, Enter(account));
            && s'.requests.Keys == s.requests.Keys + {s.next} && s.next !in s.requests
            && s'.requests[s.next].account == account && s'.requests[s.next].stage == NeedsGlobal
            && (forall r :: r in s.requests ==> s'.requests[r] == s.requests[r])
  {
    hide Retained, Live;
  }

  /** What the map keeps beside the account's own entry. */
  lemma EnterRetains(s: Admission, account: Id)
    requires Linked(s)
    ensures forall a :: a in Step(s, Enter(account)).accounts && a != account ==>
              exists r :: r in s.requests && s.requests[r].account == a
  {
    forall a | a in Retained(s) ensures exists r :: r in s.requests && s.requests[r].account == a {
      var r :| r in s.requests && s.requests[r].semaphore == s.accounts[a];
      assert s.requests[r].account == a;
    }
    hide Retained;
  }

  function RunFrom(s: Admission, actions: seq<Action>): Admission {
    if actions == [] then s else Step(RunFrom(s, actions[..|actions| - 1]), actions[|actions| - 1])
  }

  /** The others leave, and the request takes its permits. */
  predicate OnlyLeaving(actions: seq<Action>, r: Id) {
    forall i :: 0 <= i < |actions| ==>
      actions[i] == TakeGlobal(r) || actions[i] == TakeAccount(r) || (actions[i].Leave? && actions[i].request != r)
  }

  lemma {:induction false} RunFromOn(s: Admission, first: Action, actions: seq<Action>)
    ensures RunFrom(s, [first] + actions) == RunFrom(Step(s, first), actions)
    decreases |actions|
  {
    hide Step;
    var run := [first] + actions;
    if actions == [] {
      assert run[..0] == [];
      assert RunFrom(s, run[..0]) == s;
    } else {
      assert run[..|run| - 1] == [first] + actions[..|actions| - 1];
      RunFromOn(s, first, actions[..|actions| - 1]);
    }
  }

  lemma LastIsAdmitted(s: Admission, r: Id)
    requires Inv(s) && s.globalLimit > 0 && s.accountLimit > 0 && s.requests.Keys == {r}
    ensures var s' := Step(Step(s, TakeGlobal(r)), TakeAccount(r));
            r in s'.requests && s'.requests[r].stage == Admitted
  {
  }

  /** A request that waits is admitted if the others leave: from every state that the server reaches, with
      limits other than 0, a sequence of departures and of its own steps leads there. */
  lemma {:induction false} WaitingIsServed(s: Admission, r: Id)
    requires Inv(s) && s.globalLimit > 0 && s.accountLimit > 0 && r in s.requests
    ensures exists actions ::
              && OnlyLeaving(actions, r) && r in RunFrom(s, actions).requests
              && RunFrom(s, actions).requests[r].stage == Admitted
    decreases |s.requests|
  {
    hide Inv, Step;
    if s.requests.Keys == {r} {
      LastIsAdmitted(s, r);
      var actions := [TakeGlobal(r), TakeAccount(r)];
      RunFromOn(s, TakeGlobal(r), [TakeAccount(r)]);
      RunFromOn(Step(s, TakeGlobal(r)), TakeAccount(r), []);
      assert actions == [TakeGlobal(r)] + [TakeAccount(r)] && [TakeAccount(r)] == [TakeAccount(r)] + [];
      assert OnlyLeaving(actions, r);
    } else {
      var q :| q in s.requests.Keys && q != r;
      LeavingGoes(s, q);
      LeaveKeeps(s, q);
      WaitingIsServed(Step(s, Leave(q)), r);
      var rest :| && OnlyLeaving(rest, r) && r in RunFrom(Step(s, Leave(q)), rest).requests
                  && RunFrom(Step(s, Leave(q)), rest).requests[r].stage == Admitted;
      RunFromOn(s, Leave(q), rest);
      assert OnlyLeaving([Leave(q)] + rest, r);
    }
  }

  /** A departure takes the request with the permits it holds, and no other. */
  lemma LeavingGoes(s: Admission, q: Id)
    requires q in s.requests
    ensures var s' := Step(s, Leave(q));
            && s'.requests == s.requests - {q} && s' == s.(requests := s'.requests) && |s'.requests| < |s.requests|
            && HoldsGlobal(s') == HoldsGlobal(s) - {q}
            && HoldsOf(s', s.requests[q].semaphore) == HoldsOf(s, s.requests[q].semaphore) - {q}
  {
    assert s.requests.Keys == (s.requests - {q}).Keys + {q};
  }

  /* ---- As the server does it ---- */

  class Semaphores {
    var requests: map<Id, Request>
    var accounts: map<Id, Id>
    var next: Id
    const globalLimit: nat
    const accountLimit: nat

    function View(): Admission
      reads this
    {
      Admission(requests, accounts, next, globalLimit, accountLimit)
    }

    constructor (globalLimit: nat, accountLimit: nat)
      ensures View() == Start(globalLimit, accountLimit)
    {
      this.globalLimit, this.accountLimit := globalLimit, accountLimit;
      requests, accounts, next := map[], map[], 0;
    }

    /** The locked part of `acquire`: forget dead semaphores, then upgrade or replace the account's. */
    method Enter(account: Id) returns (request: Id)
      modifies this
      ensures View() == Step(old(View()), Action.Enter(account)) && request == old(next)
    {
      Retain();
      request := next;
      var semaphore := next + 1;
      next := next + 1;
      if account in accounts {
        semaphore := accounts[account];
      } else {
        accounts := accounts[account := semaphore];
        next := next + 1;
      }
      requests := requests[request := Request(account, semaphore, NeedsGlobal)];
    }

    /** `retain` over the map of weak references. */
    method Retain()
      modifies this`accounts
      ensures accounts == Retained(old(View()))
    {
      var rest := accounts.Keys;
      while rest != {}
        invariant rest <= accounts.Keys <= old(accounts).Keys
        invariant forall a :: a in accounts ==> accounts[a] == old(accounts)[a]
        invariant forall a :: a in old(accounts) && a !in rest ==>
                    (a in accounts <==> Live(old(View()), old(accounts)[a]))
        invariant forall semaphore: Id :: Live(View(), semaphore) == Live(old(View()), semaphore)
        decreases |rest|
      {
        var a :| a in rest;
        if !Live(View(), accounts[a]) {
          accounts := accounts - {a};
        }
        rest := rest - {a};
      }
    }

    method TakeGlobal(request: Id) returns (taken: bool)
      modifies this`requests
      ensures View() == Step(old(View()), Action.TakeGlobal(request))
    {
      taken := request in requests && requests[request].stage == NeedsGlobal && |HoldsGlobal(View())| < globalLimit;
      if taken {
        requests := requests[request := requests[request].(stage := NeedsAccount)];
      }
    }

    method TakeAccount(request: Id) returns (taken: bool)
      modifies this`requests
      ensures View() == Step(old(View()), Action.TakeAccount(request))
    {
      taken := request in requests && requests[request].stage == NeedsAccount
               && |HoldsOf(View(), requests[request].semaphore)| < accountLimit;
      if taken {
        requests := requests[request := requests[request].(stage := Admitted)];
      }
    }

    method Leave(request: Id)
      modifies this`requests
      ensures View() == Step(old(View()), Action.Leave(request))
    {
      requests := requests - {request};
    }
  }
}
