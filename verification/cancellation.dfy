/** CancellationTokenSource semantics, stated as generations.

    The session owns one rotating source. Each effective cancel signals the current
    source, discards it and installs a fresh one, so the sources form a sequence of
    generations and a token is cancelled exactly when the generation that issued it
    has been left behind. A linked source (CreateLinkedTokenSource) is cancelled when
    its parent token is, or when it was cancelled itself; its own cancel never
    reaches the parent. */
module Cancellation {

  /** The session's current source: `gen` sources have been discarded before it, and
      `cancelled` says whether this one has been signalled. */
  datatype RotatingSource = RotatingSource(gen: nat, cancelled: bool)

  /** The token of the source of generation `gen`. */
  datatype Token = Token(gen: nat)

  /** A source linked to a parent token, with its own cancellation flag. */
  datatype LinkedSource = LinkedSource(parent: Token, own: bool)

  function Initial(): (src: RotatingSource)
    ensures !src.cancelled
    ensures forall t: Token :: !TokenCancelled(t, src)
  {
    RotatingSource(0, false)
  }

  /** IsCancellationRequested of a token, given the session's current source. */
  predicate TokenCancelled(t: Token, src: RotatingSource)
  {
    t.gen < src.gen || (t.gen == src.gen && src.cancelled)
  }

  /** The `Token` property of the current source. */
  function CurrentToken(src: RotatingSource): (t: Token)
    ensures TokenCancelled(t, src) <==> src.cancelled
    ensures forall u: Token :: u.gen < t.gen ==> TokenCancelled(u, src)
  {
    Token(src.gen)
  }

  /** Global.Cancel: if the current source is not yet cancelled, cancel it, dispose it
      and install a fresh one; otherwise do nothing. */
  function Cancel(src: RotatingSource): (r: RotatingSource)
    ensures src.cancelled ==> r == src
    ensures !src.cancelled ==> r.gen > src.gen && !TokenCancelled(CurrentToken(r), r)
    ensures !src.cancelled ==> forall t: Token :: t.gen <= src.gen ==> TokenCancelled(t, r)
    ensures forall t: Token :: TokenCancelled(t, src) ==> TokenCancelled(t, r)
  {
    if src.cancelled then src else RotatingSource(src.gen + 1, false)
  }

  /** IsCancellationRequested of a linked source's token. */
  predicate LinkedCancelled(l: LinkedSource, src: RotatingSource)
  {
    TokenCancelled(l.parent, src) || l.own
  }

  /** CreateLinkedTokenSource(parent). */
  function Link(parent: Token): (l: LinkedSource)
    ensures l.parent == parent
    ensures forall src: RotatingSource :: LinkedCancelled(l, src) <==> TokenCancelled(parent, src)
  {
    LinkedSource(parent, false)
  }

  /** Cancel() on a linked source: the child is cancelled whatever the session does,
      and its parent token is left as it was. */
  function CancelLinked(l: LinkedSource): (r: LinkedSource)
    ensures r.parent == l.parent
    ensures forall src: RotatingSource :: LinkedCancelled(r, src)
  {
    l.(own := true)
  }

  /** A source linked to a token handed out before an effective cancel is cancelled by
      that cancel; one linked to the token handed out after it is not, until its own
      cancel or the next one. */
  lemma LinkedFollowsParent(l: LinkedSource, src: RotatingSource)
    requires !src.cancelled && l.parent.gen <= src.gen
    ensures LinkedCancelled(l, Cancel(src))
    ensures !LinkedCancelled(Link(CurrentToken(Cancel(src))), Cancel(src))
  {
  }

  /** Once cancelled, a token stays cancelled through any number of later cancels. */
  lemma {:induction false} CancelledStaysCancelled(t: Token, src: RotatingSource, n: nat)
    requires TokenCancelled(t, src)
    ensures TokenCancelled(t, CancelTimes(src, n))
    decreases n
  {
    if n > 0 {
      CancelledStaysCancelled(t, src, n - 1);
    }
  }

  function CancelTimes(src: RotatingSource, n: nat): RotatingSource
    decreases n
  {
    if n == 0 then src else Cancel(CancelTimes(src, n - 1))
  }
}
