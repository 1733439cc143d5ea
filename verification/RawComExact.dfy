/**
 What each operation on raw COM references does when it succeeds: which object the new owner
 or managed value holds, what was acquired and what was released, with everything else
 unchanged. Conservation alone could not tell a query from one that hands its input back.
 */
module RawComExact {
  import opened Wrappers
  import opened Tally
  import opened ComObjects
  import opened RawCom

  /** The handle owns a live reference and its thread is asking. */
  predicate Usable(w: World, thread: ThreadId, h: nat)
    requires Shaped(w) && h < |w.handles|
  {
    w.handles[h].Owner? && w.threads[w.handles[h].cell] == thread && w.values[w.handles[h].cell].Some?
  }

  function ObjectOf(w: World, h: nat): ObjectId
    requires Shaped(w) && h < |w.handles| && w.handles[h].Refers() && w.values[w.handles[h].cell].Some?
  {
    w.values[w.handles[h].cell].value
  }

  predicate Answered(answer: QueryAnswer) {
    answer.ok && answer.queried.Some?
  }

  /** No interface was asked for, or the query for it was answered with one. */
  predicate Granted(iid: Option<QueryAnswer>) {
    iid.Some? ==> Answered(iid.value)
  }

  /** The object the caller ends up with. */
  function Obtained(o: ObjectId, iid: Option<QueryAnswer>): ObjectId
    requires Granted(iid)
  {
    if iid.None? then o else iid.value.queried.value
  }

  /** One more acquired reference to `got` and one more released reference to `given` when a query was made. */
  ghost predicate Queried(w: World, w': World, given: ObjectId, iid: Option<QueryAnswer>)
    requires Granted(iid)
  {
    forall o :: w'.acquired[o] == w.acquired[o] + (if iid.Some? then One(Obtained(given, iid) == o) else 0)
             && w'.released[o] == w.released[o] + (if iid.Some? then One(given == o) else 0)
  }

  /** A new owner of `o` on `thread`, and no other change but to the counters and the given fields. */
  predicate GainsOwner(w: World, w': World, thread: ThreadId, o: ObjectId) {
    && w'.values == w.values + [Some(o)]
    && w'.threads == w.threads + [thread]
    && w'.handles == w.handles + [Owner(|w.values|)]
  }

  predicate SameElsewhere(w: World, w': World) {
    w'.leases == w.leases && w'.managed == w.managed && w'.slots == w.slots && w'.leaked == w.leaked
  }

  /** The counters after `o` was acquired `gained` times and released `given` times. */
  ghost predicate Counted(w: World, w': World, o: ObjectId, gained: nat, given: nat) {
    forall x :: w'.acquired[x] == w.acquired[x] + (if x == o then gained else 0)
             && w'.released[x] == w.released[x] + (if x == o then given else 0)
  }

  // ---- new owners ----

  /**
   A successful query of a managed value: the new owner holds the interface the object
   answered with. The value's object was acquired for the call and released again.
   */
  lemma ManagedQueryExact(w: World, thread: ThreadId, m: nat, admitted: bool, answer: QueryAnswer)
    requires Shaped(w) && m < |w.managed|
    ensures var (w', error) := Apply(w, OnManaged(thread, m, admitted, QueryInterface(answer)));
      && (error.None? <==> admitted && w.managed[m].Some? && Answered(answer))
      && (error.None? ==>
            && GainsOwner(w, w', thread, answer.queried.value) && SameElsewhere(w, w')
            && forall o :: w'.acquired[o] == w.acquired[o] + One(answer.queried.value == o) + One(w.managed[m].value == o)
                        && w'.released[o] == w.released[o] + One(w.managed[m].value == o))
  {
  }

  /** The same for a query on an owner, which keeps its own reference. */
  lemma OwnerQueryExact(w: World, thread: ThreadId, h: nat, answer: QueryAnswer)
    requires Shaped(w) && h < |w.handles|
    ensures var (w', error) := Apply(w, OnOwner(thread, h, Query(answer)));
      && (error.None? <==> Usable(w, thread, h) && Answered(answer))
      && (error.None? ==>
            && GainsOwner(w, w', thread, answer.queried.value) && SameElsewhere(w, w')
            && forall o :: w'.acquired[o] == w.acquired[o] + One(answer.queried.value == o) + One(ObjectOf(w, h) == o)
                        && w'.released[o] == w.released[o] + One(ObjectOf(w, h) == o))
  {
  }

  /** An extra owner of the same object, by one AddRef: of a managed value, or of an owner. */
  lemma AddRefExact(w: World, thread: ThreadId, m: nat, admitted: bool, h: nat)
    requires Shaped(w) && m < |w.managed| && h < |w.handles|
    ensures var (w', error) := Apply(w, OnManaged(thread, m, admitted, AddRef));
      && (error.None? <==> admitted && w.managed[m].Some?)
      && (error.None? ==>
            GainsOwner(w, w', thread, w.managed[m].value) && SameElsewhere(w, w') && Counted(w, w', w.managed[m].value, 1, 0))
    ensures var (w', error) := Apply(w, OnOwner(thread, h, Retain));
      && (error.None? <==> Usable(w, thread, h))
      && (error.None? ==> GainsOwner(w, w', thread, ObjectOf(w, h)) && SameElsewhere(w, w') && Counted(w, w', ObjectOf(w, h), 1, 0))
  {
  }

  /**
   Adopting a detached pointer succeeds on its own thread while its reference is live and
   the query, if there is one, is answered. The pointer's reference is gone, and the new
   owner holds the same object or the one the query answered with.
   */
  lemma AdoptExact(w: World, thread: ThreadId, h: nat, iid: Option<QueryAnswer>)
    requires Shaped(w) && h < |w.handles|
    ensures var (w', error) := Apply(w, AdoptTransferred(thread, h, iid));
      && (error.None? <==>
            w.handles[h].Detached? && w.threads[w.handles[h].cell] == thread && w.values[w.handles[h].cell].Some? && Granted(iid))
      && (error.None? ==>
            && GainsOwner(w.(values := w.values[w.handles[h].cell := None]), w', thread, Obtained(ObjectOf(w, h), iid))
            && SameElsewhere(w, w') && Queried(w, w', ObjectOf(w, h), iid))
  {
  }

  /**
   Assuming a transferred reference spends the pointer, whatever comes of it. It succeeds
   for a non-null address whose query, if there is one, is answered; the slot's reference is
   then the new owner's, or has been exchanged for the one the query answered with.
   */
  lemma AssumeExact(w: World, thread: ThreadId, h: nat, iid: Option<QueryAnswer>)
    requires Shaped(w) && h < |w.handles|
    ensures var (w', error) := Apply(w, AssumeTransferred(thread, h, iid));
      && (error.None? <==> w.handles[h].External? && w.handles[h].address != 0 && Granted(iid))
      && (w.handles[h].External? ==> |w'.handles| > h && w'.handles[h].Consumed?)
      && (error.None? ==>
            var spent := w.(handles := w.handles[h := Consumed], slots := w.slots - multiset{w.handles[h].address});
            && GainsOwner(spent, w', thread, Obtained(w.handles[h].address, iid))
            && SameElsewhere(spent, w') && Queried(w, w', w.handles[h].address, iid))
  {
  }

  /** Turning an owner into a managed value: it gives its reference away, for the interface asked for. */
  lemma IntoManagedExact(w: World, thread: ThreadId, h: nat, iid: Option<QueryAnswer>, bound: bool)
    requires Shaped(w) && h < |w.handles|
    ensures var (w', error) := Apply(w, OnOwner(thread, h, IntoManaged(iid, bound)));
      && (error.None? <==> Usable(w, thread, h) && Granted(iid) && bound)
      && (error.None? ==>
            && w'.managed == w.managed + [Some(Obtained(ObjectOf(w, h), iid))] && w'.values == w.values[w.handles[h].cell := None]
            && w'.handles == w.handles && w'.threads == w.threads && SameElsewhere(w.(managed := w'.managed), w')
            && Queried(w, w', ObjectOf(w, h), iid))
  {
  }

  /** A pointer made from a managed value has a reference of its own; one made from an owner shares the owner's. */
  lemma PointerExact(w: World, thread: ThreadId, m: nat, admitted: bool, h: nat)
    requires Shaped(w) && m < |w.managed| && h < |w.handles|
    ensures var (w', error) := Apply(w, OnManaged(thread, m, admitted, Borrow));
      && (error.None? <==> admitted && w.managed[m].Some?)
      && (error.None? ==>
            && w'.values == w.values + [w.managed[m]] && w'.threads == w.threads + [thread]
            && w'.handles == w.handles + [Borrowed(|w.values|)]
            && SameElsewhere(w, w') && Counted(w, w', w.managed[m].value, 1, 0))
    ensures var (w', error) := Apply(w, OnOwner(thread, h, PointerTo));
      && (error.None? <==> Usable(w, thread, h))
      && (error.None? ==> w' == w.(handles := w.handles + [Borrowed(w.handles[h].cell)]))
  {
  }

  // ---- references given up ----

  /** Releasing an owner releases its reference natively, once; a second release does nothing and is no error. */
  lemma ReleaseExact(w: World, thread: ThreadId, h: nat)
    requires Shaped(w) && h < |w.handles|
    ensures var (w', error) := Apply(w, OnOwner(thread, h, Release));
      && (error.None? <==> w.handles[h].Owner? && w.threads[w.handles[h].cell] == thread)
      && (if Usable(w, thread, h)
          then w' == w.(values := w.values[w.handles[h].cell := None], released := w'.released) && Counted(w, w', ObjectOf(w, h), 0, 1)
          else w' == w)
      && Shaped(w') && (error.None? ==> Apply(w', OnOwner(thread, h, Release)) == (w', None))
  {
  }

  /** A lease acquires its object once, and ending it releases that object once; ending it again does nothing. */
  lemma LeaseExact(w: World, thread: ThreadId, h: nat)
    requires Shaped(w) && h < |w.handles|
    ensures var (w', error) := Apply(w, Lease(thread, h));
      && (error.None? <==> w.handles[h].Refers() && w.threads[w.handles[h].cell] == thread && w.values[w.handles[h].cell].Some?)
      && (error.None? ==>
            && w' == w.(leases := w.leases + [Some(ObjectOf(w, h))], acquired := w'.acquired) && Counted(w, w', ObjectOf(w, h), 1, 0)
            && var (ended, none) := Apply(w', EndLease(|w.leases|));
            && ended == w'.(leases := w.leases + [None], released := ended.released) && Counted(w, ended, ObjectOf(w, h), 1, 1)
            && Apply(ended, EndLease(|w.leases|)) == (ended, None))
  {
  }

  /** A managed value that is dropped releases its reference once, or leaks it where it cannot be released. */
  lemma DropManagedExact(w: World, m: nat, leak: bool)
    requires Shaped(w) && m < |w.managed| && w.managed[m].Some?
    ensures var (w', none) := Apply(w, DropManaged(m, leak));
      && w' == w.(managed := w.managed[m := None], released := w'.released, leaked := w'.leaked)
      && Counted(w, w', w.managed[m].value, 0, if leak then 0 else 1)
      && w'.leaked == (if leak then w.leaked + multiset{w.managed[m].value} else w.leaked)
      && Apply(w', DropManaged(m, leak)) == (w', None)
  {
  }

  /**
   Dropping a handle gives its reference up when it owned it or was the last to refer to it:
   by one native release on the owner thread before its loop exited, by a leak otherwise.
   */
  lemma DropHandleExact(w: World, thread: ThreadId, h: nat, exited: bool)
    requires Shaped(w) && h < |w.handles| && w.handles[h].Refers() && w.values[w.handles[h].cell].Some?
    ensures var (w', none) := Apply(w, DropHandle(thread, h, exited));
      && w'.handles == w.handles[h := Dropped] && w'.acquired == w.acquired
      && var c := w.handles[h].cell;
         var last := w.handles[h].Owner? || forall k :: 0 <= k < |w.handles| && k != h ==> !w.handles[k].RefersTo(c);
         var releases := last && thread == w.threads[c] && !exited;
      && w'.values == (if last then w.values[c := None] else w.values)
      && Counted(w, w', ObjectOf(w, h), 0, if releases then 1 else 0)
      && w'.leaked == (if last && !releases then w.leaked + multiset{ObjectOf(w, h)} else w.leaked)
  {
    var c, dropped := w.handles[h].cell, w.handles[h := Dropped];
    if StillReferred(dropped, c) {
      var k :| 0 <= k < |dropped| && dropped[k].RefersTo(c);
      assert k != h && w.handles[k].RefersTo(c);
    } else {
      forall k | 0 <= k < |w.handles| && k != h ensures !w.handles[k].RefersTo(c) { assert !dropped[k].RefersTo(c); }
    }
  }
}
