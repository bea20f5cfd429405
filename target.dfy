/** The pieces of the Q-learning update shared by fk_dqn.py,
    q-learn/features4.py and dqn5/main.py: the damped (double-Q) target and
    the greedy action of a row of Q-values. */
module Target {

  /** `(1 - alpha) * current + alpha * (reward + gamma * nextMaxQ)`: the stored
      estimate moved a fraction `alpha` of the way towards the bootstrapped
      value `reward + gamma * nextMaxQ`. */
  function DampedTarget(alpha: real, gamma: real, current: real, reward: real, nextMaxQ: real): (r: real)
    ensures r - current == alpha * (reward + gamma * nextMaxQ - current)
    ensures alpha == 1.0 ==> r == reward + gamma * nextMaxQ
    ensures alpha == 0.0 ==> r == current
  {
    (1.0 - alpha) * current + alpha * (reward + gamma * nextMaxQ)
  }

  /** With `0 <= alpha <= 1` the target lies between the current estimate and
      the bootstrapped value. */
  lemma DampedTargetBetween(alpha: real, gamma: real, current: real, reward: real, nextMaxQ: real)
    requires 0.0 <= alpha <= 1.0
    ensures var v, r := reward + gamma * nextMaxQ, DampedTarget(alpha, gamma, current, reward, nextMaxQ);
            (current <= v ==> current <= r <= v) && (v <= current ==> v <= r <= current)
  {
    var v := reward + gamma * nextMaxQ;
    var d := if current <= v then v - current else current - v;
    MulBetween(alpha, d);
  }

  lemma MulBetween(alpha: real, d: real)
    requires 0.0 <= alpha <= 1.0 && 0.0 <= d
    ensures 0.0 <= alpha * d <= d
  {
    assert d - alpha * d == (1.0 - alpha) * d;
  }

  /** `x` to the power `k`: the decay after `k` multiplications by `x`. */
  function Pow(x: real, k: nat): (r: real)
  {
    if k == 0 then 1.0 else x * Pow(x, k - 1)
  }

  /** No decay at all when the factor is 1. */
  lemma {:induction false} PowOne(k: nat)
    ensures Pow(1.0, k) == 1.0
  {
    if k > 0 {
      PowOne(k - 1);
    }
  }

  /** The index of the first maximum of a non-empty row. `tf.argmax` does not
      say which index it returns on a tie; the first one is this model's
      choice. */
  function ArgMax(s: seq<real>): (i: nat)
    requires |s| > 0
    ensures i < |s|
    ensures forall j :: 0 <= j < |s| ==> s[j] <= s[i]
    ensures forall j :: 0 <= j < i ==> s[j] < s[i]
    decreases |s|
  {
    if |s| == 1 then 0
    else
      var k := ArgMax(s[..|s| - 1]);
      assert forall j :: 0 <= j < |s| - 1 ==> s[..|s| - 1][j] == s[j];
      if s[k] < s[|s| - 1] then |s| - 1 else k
  }
}
