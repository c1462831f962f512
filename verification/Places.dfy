/** Connections are in one place: parked, held by a session, lent to a scatter leg, or nowhere. */
module Places {

  /** `idle`, `held` and `lent` name connections; all numbers from `next` on are still to be given out. */
  predicate Apart(idle: seq<nat>, held: map<nat, nat>, lent: map<nat, nat>, next: nat) {
    && (forall i :: 0 <= i < |idle| ==> idle[i] < next)
    && (forall i, j :: 0 <= i < j < |idle| ==> idle[i] != idle[j])
    && (forall s <- held :: held[s] < next && held[s] !in idle)
    && (forall s <- held, r <- held :: s != r ==> held[s] != held[r])
    && (forall l <- lent :: lent[l] < next && lent[l] !in idle)
    && (forall l <- lent, k <- lent :: l != k ==> lent[l] != lent[k])
    && (forall s <- held, l <- lent :: held[s] != lent[l])
  }

  /** The connection `id` is nowhere. */
  predicate Free(idle: seq<nat>, held: map<nat, nat>, lent: map<nat, nat>, next: nat, id: nat) {
    && id < next && id !in idle
    && (forall s <- held :: held[s] != id)
    && (forall l <- lent :: lent[l] != id)
  }

  lemma Take(idle: seq<nat>, held: map<nat, nat>, lent: map<nat, nat>, next: nat, n: nat)
    requires Apart(idle, held, lent, next) && n < |idle|
    ensures Apart(idle[..n], held, lent, next) && Free(idle[..n], held, lent, next, idle[n])
  {
    assert forall i :: 0 <= i < n ==> idle[..n][i] == idle[i];
  }

  lemma Close(idle: seq<nat>, held: map<nat, nat>, lent: map<nat, nat>, next: nat, n: nat)
    requires Apart(idle, held, lent, next) && n <= |idle|
    ensures Apart(idle[..n], held, lent, next)
  {
  }

  lemma Expire(idle: seq<nat>, held: map<nat, nat>, lent: map<nat, nat>, next: nat, i: nat)
    requires Apart(idle, held, lent, next) && i < |idle|
    ensures Apart(idle[..i] + idle[i + 1..], held, lent, next)
  {
    var rest := idle[..i] + idle[i + 1..];
    assert forall j :: 0 <= j < |rest| ==> rest[j] == idle[if j < i then j else j + 1];
  }

  lemma Fresh(idle: seq<nat>, held: map<nat, nat>, lent: map<nat, nat>, next: nat)
    requires Apart(idle, held, lent, next)
    ensures Apart(idle, held, lent, next + 1) && Free(idle, held, lent, next + 1, next)
  {
  }

  lemma Push(idle: seq<nat>, held: map<nat, nat>, lent: map<nat, nat>, next: nat, id: nat)
    requires Apart(idle, held, lent, next) && Free(idle, held, lent, next, id)
    ensures Apart(idle + [id], held, lent, next)
  {
  }

  lemma Release(idle: seq<nat>, held: map<nat, nat>, lent: map<nat, nat>, next: nat, s: nat)
    requires Apart(idle, held, lent, next)
    ensures Apart(idle, held - {s}, lent, next)
    ensures s in held ==> Free(idle, held - {s}, lent, next, held[s])
  {
  }

  lemma Hold(idle: seq<nat>, held: map<nat, nat>, lent: map<nat, nat>, next: nat, s: nat, id: nat)
    requires Apart(idle, held, lent, next)
    requires Free(idle, held - {s}, lent, next, id)
    ensures Apart(idle, held[s := id], lent, next)
  {
    var h := held[s := id];
    assert forall r <- h :: r != s ==> r in held - {s} && h[r] == (held - {s})[r];
  }

  lemma Return(idle: seq<nat>, held: map<nat, nat>, lent: map<nat, nat>, next: nat, l: nat)
    requires Apart(idle, held, lent, next)
    ensures Apart(idle, held, lent - {l}, next)
    ensures l in lent ==> Free(idle, held, lent - {l}, next, lent[l])
  {
  }

  lemma Lend(idle: seq<nat>, held: map<nat, nat>, lent: map<nat, nat>, next: nat, l: nat, id: nat)
    requires Apart(idle, held, lent, next) && l !in lent
    requires Free(idle, held, lent, next, id)
    ensures Apart(idle, held, lent[l := id], next)
  {
    var m := lent[l := id];
    assert forall k <- m :: k != l ==> k in lent && m[k] == lent[k];
  }
}
