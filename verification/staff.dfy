/** The staff side of bot.js: buttons pressed in the staff group. A press
    changes the books only when the group is the configured one and the
    presser is one of its administrators; Accept credits the order's coins
    and marks it accepted, with no check of the order's current status. */
module Staff {
  import opened Common
  import opened JsString
  import opened Ledger
  import opened AdminCache
  import opened Payloads
  import opened Session
  import opened Bot
  import opened Flows

  /** A press of button `data` by `from` in group `chatId`. */
  function StaffPress(w: World, from: int, chatId: int, data: string, env: Env): World {
    Step(w, from, Button(Group(chatId), data), env)
  }

  /** The books are untouched: every balance, the orders and the licences. */
  ghost predicate SameBooks(w: World, w': World) {
    && w'.orders == w.orders && w'.nextOrderId == w.nextOrderId
    && w'.licenses == w.licenses && w'.nextLicenseId == w.nextLicenseId
    && SameBalances(w, w')
  }

  /** The presser passes both tests of the staff branch. */
  predicate GatePasses(w: World, from: int, chatId: int, env: Env) {
    IsStaffGroup(w.config, chatId) && IsChatAdmin(w.cache, chatId, from, env.now, env.fetchedAdmins).0
  }

  /** The state a press in the staff group leaves before the action: the
      presser's row exists and the cache is whatever the admin test left. */
  function Gated(w: World, from: int, chatId: int, env: Env): World {
    Touch(w, from).(cache := IsChatAdmin(w.cache, chatId, from, env.now, env.fetchedAdmins).1)
  }

  /** The `getUser` insert adds a row with no coins, so no balance moves. */
  lemma TouchKeepsBalances(w: World, from: int)
    ensures forall x :: Balance(Touch(w, from), x) == Balance(w, x)
  {
  }

  // ---------------------------------------------------------------------
  // The gate

  /** A press outside the configured group changes nothing but the
      `getUser` insert, and does not consult the administrator list. */
  lemma OtherGroupIgnored(w: World, from: int, chatId: int, data: string, env: Env)
    requires !IsStaffGroup(w.config, chatId)
    ensures StaffPress(w, from, chatId, data, env) == Touch(w, from)
  {
  }

  /** A press by anyone who is not an administrator of the staff group leaves
      the books and every customer row as they were; only the cache may
      have been reloaded. */
  lemma NonAdminIgnored(w: World, from: int, chatId: int, data: string, env: Env)
    requires IsStaffGroup(w.config, chatId) && !GatePasses(w, from, chatId, env)
    ensures var w' := StaffPress(w, from, chatId, data, env);
      && SameBooks(w, w')
      && w'.users == Touch(w, from).users
      && w'.config == w.config
  {
    assert StaffPress(w, from, chatId, data, env) == Gated(w, from, chatId, env);
    TouchKeepsBalances(w, from);
  }

  /** An administrator's press in the staff group applies the decoded action
      to the state the gate leaves. */
  lemma AdminPressApplies(w: World, from: int, chatId: int, data: string, env: Env)
    requires GatePasses(w, from, chatId, env)
    ensures StaffPress(w, from, chatId, data, env) == ApplyAdminAction(Gated(w, from, chatId, env), DecodeAdmin(data))
  {
  }

  /** Once an administrator has passed the gate, a further press by them in
      the same group at the same moment passes it too, answered from the
      cache without consulting the service. */
  lemma GatePersists(w: World, from: int, chatId: int, data: string, env: Env)
    requires GatePasses(w, from, chatId, env)
    ensures var w' := StaffPress(w, from, chatId, data, env);
      && w'.config == w.config
      && !NeedsReload(w'.cache, chatId, env.now)
      && GatePasses(w', from, chatId, env)
  {
    AdminPressApplies(w, from, chatId, data, env);
    var g := Gated(w, from, chatId, env);
    assert ApplyAdminAction(g, DecodeAdmin(data)).cache == g.cache;
    assert ApplyAdminAction(g, DecodeAdmin(data)).config == g.config;
  }

  // ---------------------------------------------------------------------
  // The actions

  /** Decline, licence decline and unknown actions leave the state as the
      gate left it. */
  lemma InertActions(w: World, a: AdminAction)
    requires a.DeclineOrder? || a.DeclineLicense? || a.NoAdminAction?
    ensures ApplyAdminAction(w, a) == w
  {
  }

  /** Decline, licence decline and unknown actions change neither the books
      nor any row, even for an administrator. */
  lemma DeclineChangesNothing(w: World, from: int, chatId: int, data: string, env: Env)
    requires var a := DecodeAdmin(data); a.DeclineOrder? || a.DeclineLicense? || a.NoAdminAction?
    ensures var w' := StaffPress(w, from, chatId, data, env);
      SameBooks(w, w') && w'.users == Touch(w, from).users
  {
    if GatePasses(w, from, chatId, env) {
      AdminPressApplies(w, from, chatId, data, env);
      InertActions(Gated(w, from, chatId, env), DecodeAdmin(data));
      TouchKeepsBalances(w, from);
    } else if IsStaffGroup(w.config, chatId) {
      NonAdminIgnored(w, from, chatId, data, env);
    } else {
      OtherGroupIgnored(w, from, chatId, data, env);
      TouchKeepsBalances(w, from);
    }
  }

  /** Whatever the button, a press that changes the books was made in the
      configured group by a member of an administrator list held for that
      chat and fresh at the time of the press. */
  lemma BooksChangeOnlyForAdmins(w: World, from: int, chatId: int, data: string, env: Env)
    ensures var w' := StaffPress(w, from, chatId, data, env);
      !SameBooks(w, w') ==>
        && IsStaffGroup(w.config, chatId)
        && from in w'.cache.admins
        && w'.cache.chatId == Some(chatId)
        && env.now - w'.cache.timestamp <= TtlMs
  {
    if !GatePasses(w, from, chatId, env) {
      if IsStaffGroup(w.config, chatId) {
        NonAdminIgnored(w, from, chatId, data, env);
      } else {
        OtherGroupIgnored(w, from, chatId, data, env);
        TouchKeepsBalances(w, from);
      }
    } else {
      GatePersists(w, from, chatId, data, env);
      assert IsChatAdmin(w.cache, chatId, from, env.now, env.fetchedAdmins).0;
      var w' := StaffPress(w, from, chatId, data, env);
      assert w'.cache == IsChatAdmin(w.cache, chatId, from, env.now, env.fetchedAdmins).1 by {
        AdminPressApplies(w, from, chatId, data, env);
        var g := Gated(w, from, chatId, env);
        assert ApplyAdminAction(g, DecodeAdmin(data)).cache == g.cache;
      }
    }
  }

  /** The Decline button under an order leaves the order pending. */
  lemma DeclineButtonKeepsOrder(w: World, from: int, chatId: int, userId: int, orderId: int, env: Env)
    ensures var w' := StaffPress(w, from, chatId, DeclinePayload(userId, orderId), env);
      SameBooks(w, w') && w'.orders == w.orders
  {
    DeclinePayloadRoundTrip(userId, orderId);
    DeclineChangesNothing(w, from, chatId, DeclinePayload(userId, orderId), env);
  }

  /** The accept action on its own: an existing customer row gains exactly
      the coins, no other balance moves, and the order, if its id parses and
      it exists,
      becomes accepted whatever its status was. */
  lemma AcceptAction(w: World, u: int, o: Option<int>, c: nat)
    ensures var w' := ApplyAdminAction(w, AcceptOrder(Some(u), o, Some(c)));
      && (u in w.users ==> Balance(w', u) == Balance(w, u) + c)
      && (u !in w.users ==> Balance(w', u) == Balance(w, u))
      && (forall x :: x != u ==> Balance(w', x) == Balance(w, x))
      && (o.Some? && o.value in w.orders ==> w'.orders == w.orders[o.value := w.orders[o.value].(status := Accepted)])
      && (!(o.Some? && o.value in w.orders) ==> w'.orders == w.orders)
      && w'.nextOrderId == w.nextOrderId
      && w'.licenses == w.licenses && w'.nextLicenseId == w.nextLicenseId
      && w'.cache == w.cache && w'.config == w.config
      && w'.users.Keys == w.users.Keys
  {
  }

  /** Accept by an administrator: the customer's row, if it exists, gains
      exactly the coins; no other balance moves; the order, if its id parses
      and it exists, becomes accepted whatever its status was and nothing else in it
      changes; no other order and no licence changes. */
  lemma AcceptCredits(w: World, from: int, chatId: int, data: string, env: Env,
                      u: int, o: Option<int>, c: nat)
    requires GatePasses(w, from, chatId, env)
    requires DecodeAdmin(data) == AcceptOrder(Some(u), o, Some(c))
    ensures var w' := StaffPress(w, from, chatId, data, env);
      && (u in w.users || u == from ==> Balance(w', u) == Balance(w, u) + c)
      && (u !in w.users && u != from ==> Balance(w', u) == Balance(w, u))
      && (forall x :: x != u ==> Balance(w', x) == Balance(w, x))
      && (o.Some? && o.value in w.orders ==> w'.orders == w.orders[o.value := w.orders[o.value].(status := Accepted)])
      && (!(o.Some? && o.value in w.orders) ==> w'.orders == w.orders)
      && w'.nextOrderId == w.nextOrderId
      && w'.licenses == w.licenses && w'.nextLicenseId == w.nextLicenseId
      && w'.users.Keys == w.users.Keys + {from}
  {
    AdminPressApplies(w, from, chatId, data, env);
    var g := Gated(w, from, chatId, env);
    TouchKeepsBalances(w, from);
    assert forall x :: Balance(g, x) == Balance(w, x) by {
      forall x ensures Balance(g, x) == Balance(Touch(w, from), x) { }
    }
    AcceptAction(g, u, o, c);
  }

  /** Accept on an order that is already accepted credits the coins again:
      the handler has no status guard. */
  lemma AcceptIsNotGuarded(w: World, from: int, chatId: int, data: string, env: Env, o: int, c: nat)
    requires GatePasses(w, from, chatId, env)
    requires o in w.orders && w.orders[o].status == Accepted
    requires var u := w.orders[o].userId; u in w.users && DecodeAdmin(data) == AcceptOrder(Some(u), Some(o), Some(c))
    ensures var w' := StaffPress(w, from, chatId, data, env);
      && Balance(w', w.orders[o].userId) == Balance(w, w.orders[o].userId) + c
      && w'.orders == w.orders
  {
    var u := w.orders[o].userId;
    AcceptCredits(w, from, chatId, data, env, u, Some(o), c);
    assert w.orders[o].(status := Accepted) == w.orders[o];
  }

  /** The Accept button the photo handler puts under an order decodes to an
      accept of that order for its customer with its coins, so an
      administrator's press credits the customer those coins. */
  lemma AcceptButtonOfOrder(w: World, from: int, chatId: int, o: int, env: Env)
    requires GatePasses(w, from, chatId, env)
    requires o in w.orders && w.orders[o].coins.Some? && w.orders[o].coins.value >= 0
    requires w.orders[o].userId in w.users
    ensures var ord := w.orders[o];
      var w' := StaffPress(w, from, chatId, AcceptPayload(ord.userId, o, ord.coins), env);
      && Balance(w', ord.userId) == Balance(w, ord.userId) + ord.coins.value
      && w'.orders == w.orders[o := ord.(status := Accepted)]
  {
    var ord := w.orders[o];
    AcceptPayloadRoundTrip(ord.userId, o, ord.coins);
    AcceptCredits(w, from, chatId, AcceptPayload(ord.userId, o, ord.coins), env, ord.userId, Some(o), ord.coins.value);
  }

  /** The finish action on its own activates the licence whatever its status. */
  lemma FinishAction(w: World, u: Option<int>, l: int)
    ensures var w' := ApplyAdminAction(w, FinishLicense(u, Some(l)));
      && (l in w.licenses ==> w'.licenses == w.licenses[l := License(w.licenses[l].userId, Active)])
      && (l !in w.licenses ==> w'.licenses == w.licenses)
      && w'.orders == w.orders && w'.users == w.users
  {
  }

  /** Finish licence by an administrator activates the licence, whatever its
      status was, and touches no balance and no order. */
  lemma FinishActivates(w: World, from: int, chatId: int, data: string, env: Env, u: Option<int>, l: int)
    requires GatePasses(w, from, chatId, env)
    requires DecodeAdmin(data) == FinishLicense(u, Some(l))
    ensures var w' := StaffPress(w, from, chatId, data, env);
      && (l in w.licenses ==> w'.licenses == w.licenses[l := License(w.licenses[l].userId, Active)])
      && (l !in w.licenses ==> w'.licenses == w.licenses)
      && w'.orders == w.orders
      && (forall x :: Balance(w', x) == Balance(w, x))
  {
    AdminPressApplies(w, from, chatId, data, env);
    var g := Gated(w, from, chatId, env);
    FinishAction(g, u, l);
    TouchKeepsBalances(w, from);
    assert forall x :: Balance(g, x) == Balance(Touch(w, from), x);
  }

  // ---------------------------------------------------------------------
  // Repeated presses

  /** A run of presses: each state is the one before it after the same
      button is pressed by the same person. Press i sees the clock and the
      administrator service as `envs[i]`, so the presses may come at any
      times. */
  ghost predicate IsPressRun(ws: seq<World>, from: int, chatId: int, data: string, envs: seq<Env>) {
    && |ws| >= 1 && |envs| == |ws| - 1
    && forall i :: 0 <= i < |envs| ==> ws[i + 1] == StaffPress(ws[i], from, chatId, data, envs[i])
  }

  /** Every press of the run gets past the staff-group and administrator
      tests at the moment it is made. */
  ghost predicate GatedRun(ws: seq<World>, from: int, chatId: int, envs: seq<Env>) {
    |envs| < |ws| && forall i :: 0 <= i < |envs| ==> GatePasses(ws[i], from, chatId, envs[i])
  }

  /** One Accept by an administrator credits an existing customer and leaves
      the gate open for the next press at the same moment. */
  lemma AcceptStep(w: World, from: int, chatId: int, data: string, env: Env, u: int, o: Option<int>, c: nat)
    requires GatePasses(w, from, chatId, env)
    requires DecodeAdmin(data) == AcceptOrder(Some(u), o, Some(c))
    requires u in w.users
    ensures var w' := StaffPress(w, from, chatId, data, env);
      GatePasses(w', from, chatId, env) && u in w'.users && Balance(w', u) == Credit(Balance(w, u), c)
  {
    AcceptCredits(w, from, chatId, data, env, u, o, c);
    GatePersists(w, from, chatId, data, env);
  }

  /** A run without its last press is a run, gated if the whole run was, and
      the last state is one press after the one before it. */
  lemma RunPrefix(ws: seq<World>, from: int, chatId: int, data: string, envs: seq<Env>)
    requires IsPressRun(ws, from, chatId, data, envs) && |ws| > 1
    ensures IsPressRun(ws[..|ws| - 1], from, chatId, data, envs[..|envs| - 1])
    ensures GatedRun(ws, from, chatId, envs) ==> GatedRun(ws[..|ws| - 1], from, chatId, envs[..|envs| - 1])
    ensures ws[|ws| - 1] == StaffPress(ws[|ws| - 2], from, chatId, data, envs[|envs| - 1])
  {
    var prefix, prefixEnvs := ws[..|ws| - 1], envs[..|envs| - 1];
    forall i | 0 <= i < |prefixEnvs|
      ensures prefix[i + 1] == StaffPress(prefix[i], from, chatId, data, prefixEnvs[i])
    {
      assert prefix[i] == ws[i] && prefix[i + 1] == ws[i + 1] && prefixEnvs[i] == envs[i];
    }
    if GatedRun(ws, from, chatId, envs) {
      forall i | 0 <= i < |prefixEnvs|
        ensures GatePasses(prefix[i], from, chatId, prefixEnvs[i])
      {
        assert prefix[i] == ws[i] && prefixEnvs[i] == envs[i];
      }
    }
    assert ws[|ws| - 2 + 1] == StaffPress(ws[|ws| - 2], from, chatId, data, envs[|ws| - 2]);
  }

  /** The last press of a run, if it gets past the gate, is an Accept that
      credits the customer once more. */
  lemma LastAccept(ws: seq<World>, from: int, chatId: int, data: string, envs: seq<Env>,
                   u: int, o: Option<int>, c: nat)
    requires IsPressRun(ws, from, chatId, data, envs) && |ws| > 1
    requires GatePasses(ws[|ws| - 2], from, chatId, envs[|envs| - 1]) && u in ws[|ws| - 2].users
    requires DecodeAdmin(data) == AcceptOrder(Some(u), o, Some(c))
    ensures var last := ws[|ws| - 1];
      u in last.users && Balance(last, u) == Credit(Balance(ws[|ws| - 2], u), c)
  {
    RunPrefix(ws, from, chatId, data, envs);
    AcceptCredits(ws[|ws| - 2], from, chatId, data, envs[|envs| - 1], u, o, c);
  }

  /** n Accepts of the same payload, each let through when it is made,
      credit n times the coins: none is refused for the order being accepted
      already, whenever it comes. */
  lemma {:induction false} RepeatedAcceptCredits(ws: seq<World>, from: int, chatId: int, data: string,
                                                 envs: seq<Env>, u: int, o: Option<int>, c: nat)
    requires IsPressRun(ws, from, chatId, data, envs) && GatedRun(ws, from, chatId, envs)
    requires DecodeAdmin(data) == AcceptOrder(Some(u), o, Some(c))
    requires u in ws[0].users
    ensures var last := ws[|ws| - 1];
      u in last.users && Balance(last, u) == CreditTimes(Balance(ws[0], u), c, |ws| - 1)
    decreases |ws|
  {
    if |ws| > 1 {
      var prefix, prefixEnvs := ws[..|ws| - 1], envs[..|envs| - 1];
      RunPrefix(ws, from, chatId, data, envs);
      RepeatedAcceptCredits(prefix, from, chatId, data, prefixEnvs, u, o, c);
      assert prefix[|prefix| - 1] == ws[|ws| - 2] && prefix[0] == ws[0];
      assert GatePasses(ws[|envs| - 1], from, chatId, envs[|envs| - 1]);
      LastAccept(ws, from, chatId, data, envs, u, o, c);
    }
  }

  /** The balance after a gated run of n Accepts is the starting balance plus
      n times the coins. */
  lemma RepeatedAcceptAddsProduct(ws: seq<World>, from: int, chatId: int, data: string, envs: seq<Env>,
                                  u: int, o: Option<int>, c: nat)
    requires IsPressRun(ws, from, chatId, data, envs) && GatedRun(ws, from, chatId, envs)
    requires DecodeAdmin(data) == AcceptOrder(Some(u), o, Some(c))
    requires u in ws[0].users
    ensures Balance(ws[|ws| - 1], u) == Balance(ws[0], u) + (|ws| - 1) * c
  {
    RepeatedAcceptCredits(ws, from, chatId, data, envs, u, o, c);
    CreditTimesAddsProduct(Balance(ws[0], u), c, |ws| - 1);
  }

  /** Presses made at one moment, the first of which gets through, all get
      through: the first fills the cache that answers the rest. */
  lemma {:induction false} OneInstantRunIsGated(ws: seq<World>, from: int, chatId: int, data: string,
                                                envs: seq<Env>, env: Env)
    requires IsPressRun(ws, from, chatId, data, envs)
    requires forall i :: 0 <= i < |envs| ==> envs[i] == env
    requires GatePasses(ws[0], from, chatId, env)
    ensures GatedRun(ws, from, chatId, envs) && GatePasses(ws[|ws| - 1], from, chatId, env)
    decreases |ws|
  {
    if |ws| > 1 {
      var prefix, prefixEnvs := ws[..|ws| - 1], envs[..|envs| - 1];
      RunPrefix(ws, from, chatId, data, envs);
      assert forall i :: 0 <= i < |prefixEnvs| ==> prefixEnvs[i] == envs[i];
      assert prefix[0] == ws[0];
      OneInstantRunIsGated(prefix, from, chatId, data, prefixEnvs, env);
      assert prefix[|prefix| - 1] == ws[|ws| - 2];
      GatePersists(ws[|ws| - 2], from, chatId, data, env);
      forall i | 0 <= i < |envs|
        ensures GatePasses(ws[i], from, chatId, envs[i])
      {
        if i < |prefixEnvs| {
          assert prefix[i] == ws[i] && prefixEnvs[i] == envs[i];
        }
      }
    }
  }
}
