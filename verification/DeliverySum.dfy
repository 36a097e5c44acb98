/** Sums over the messages of the broker. */
module DeliverySum {
  import opened Delivery

  function Sum(msgs: seq<Msg>, f: Msg -> nat): (n: nat)
    decreases |msgs|
  {
    if msgs == [] then 0 else Sum(msgs[..|msgs| - 1], f) + f(msgs[|msgs| - 1])
  }

  lemma {:induction false} SumPush(msgs: seq<Msg>, msg: Msg, f: Msg -> nat)
    ensures Sum(msgs + [msg], f) == Sum(msgs, f) + f(msg)
  {
    assert (msgs + [msg])[..|msgs|] == msgs;
  }

  lemma {:induction false} SumUpdate(msgs: seq<Msg>, m: nat, msg: Msg, f: Msg -> nat)
    requires m < |msgs|
    ensures Sum(msgs[m := msg], f) == Sum(msgs, f) - f(msgs[m]) + f(msg)
    ensures Sum(msgs, f) >= f(msgs[m])
    decreases |msgs|
  {
    var k := |msgs| - 1;
    if m == k {
      assert msgs[m := msg][..k] == msgs[..k];
    } else {
      assert msgs[m := msg][..k] == msgs[..k][m := msg];
      SumUpdate(msgs[..k], m, msg, f);
    }
  }

  lemma {:induction false} SumAgrees(msgs: seq<Msg>, f: Msg -> nat, g: Msg -> nat)
    requires forall m | 0 <= m < |msgs| :: f(msgs[m]) <= g(msgs[m])
    ensures Sum(msgs, f) <= Sum(msgs, g)
    decreases |msgs|
  {
    if msgs != [] { SumAgrees(msgs[..|msgs| - 1], f, g); }
  }

  function Of(msgs: seq<Msg>, f: Msg -> nat): nat
    requires |msgs| <= 1
  {
    if |msgs| == 1 then f(msgs[0]) else 0
  }

  /** The sum after an act. */
  lemma SumEffect(s: Sys, m: nat, c: Change, f: Msg -> nat)
    requires m < |s.msgs| && |c.added| <= 1
    ensures Sum(Effect(s, m, c).msgs, f) == Sum(s.msgs, f) - f(s.msgs[m]) + f(c.msg) + Of(c.added, f)
    ensures Sum(s.msgs, f) >= f(s.msgs[m])
  {
    SumUpdate(s.msgs, m, c.msg, f);
    if |c.added| == 1 {
      SumPush(s.msgs[m := c.msg], c.added[0], f);
      assert c.added == [c.added[0]];
    } else {
      assert c.added == [];
      assert s.msgs[m := c.msg] + [] == s.msgs[m := c.msg];
    }
  }
}
