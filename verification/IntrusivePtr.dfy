/** Reference counting pointers: every operation, whatever its arguments alias, keeps each object's count
    equal to the number of pointers that hold it, and deletes an object exactly when its last pointer
    leaves it. */
module IntrusivePointer {

  /** An object with an embedded counter; `alive` turns false when it is deleted. */
  class Counted {
    var count: nat
    var alive: bool

    constructor ()
      ensures count == 0 && alive
    {
      count, alive := 0, true;
    }

    method AddRef()
      modifies this
      ensures count == old(count) + 1 && alive == old(alive)
    {
      count := count + 1;
    }

    method Release()
      requires count > 0
      modifies this
      ensures count == old(count) - 1 && alive == (old(alive) && old(count) != 1)
    {
      var before := count;
      count := count - 1;
      if before == 1 {
        alive := false;
      }
    }
  }

  /** The pointers of a view that hold an object. */
  ghost function HolderSet(view: map<IntrusivePtr, Counted?>, o: Counted): set<IntrusivePtr> {
    set p | p in view && view[p] == o
  }

  ghost function Holders(view: map<IntrusivePtr, Counted?>, o: Counted): nat {
    |HolderSet(view, o)|
  }

  /** What moving one pointer from `was` to `now` adds to an object's holders. */
  ghost function Change(was: Counted?, now: Counted?, o: Counted): int {
    (if now == o then 1 else 0) - if was == o then 1 else 0
  }

  lemma HoldersSet(view: map<IntrusivePtr, Counted?>, p: IntrusivePtr, t: Counted?, o: Counted)
    requires p in view
    ensures Holders(view[p := t], o) == Holders(view, o) + Change(view[p], t, o)
  {
    var before, after := HolderSet(view, o), HolderSet(view[p := t], o);
    assert before - {p} == after - {p};
    assert |before - {p}| == |before| - (if p in before then 1 else 0);
    assert |after - {p}| == |after| - (if p in after then 1 else 0);
  }

  lemma HoldersAdd(view: map<IntrusivePtr, Counted?>, p: IntrusivePtr, t: Counted?, o: Counted)
    requires p !in view
    ensures Holders(view[p := t], o) == Holders(view, o) + Change(null, t, o)
  {
    var before, after := HolderSet(view, o), HolderSet(view[p := t], o);
    assert after == if t == o then before + {p} else before;
  }

  lemma HeldIsCounted(view: map<IntrusivePtr, Counted?>, p: IntrusivePtr, o: Counted)
    requires p in view && view[p] == o
    ensures Holders(view, o) > 0
  {
    assert p in HolderSet(view, o);
  }

  ghost function View(ps: set<IntrusivePtr>): map<IntrusivePtr, Counted?>
    reads ps
  {
    map p | p in ps :: p.target
  }

  /** `ps` are all the pointers there are, `os` the objects they may hold: no pointer dangles and every count
      is the number of holders. */
  ghost predicate Balanced(ps: set<IntrusivePtr>, os: set<Counted>)
    reads ps, os
  {
    && (forall p :: p in ps && p.target != null ==> p.target in os)
    && (forall o :: o in os ==> o.count == Holders(View(ps), o) && (o.count > 0 ==> o.alive))
  }

  /** One pointer moves from `was` to `now`: only their counts change, and only an object whose count drops
      to zero is deleted. */
  twostate predicate Moved(was: Counted?, now: Counted?, os: set<Counted>)
    reads os
  {
    forall o :: o in os ==>
      && o.count == old(o.count) + Change(was, now, o)
      && (o.alive <==> old(o.alive) && (o.count > 0 || old(o.count) == 0))
  }

  class IntrusivePtr {
    var target: Counted?

    constructor ()
      ensures target == null
    {
      target := null;
    }

    constructor FromRaw(t: Counted?, ghost ps: set<IntrusivePtr>, ghost os: set<Counted>)
      requires Balanced(ps, os) && (t != null ==> t in os && t.alive)
      modifies os
      ensures target == t && Balanced(ps + {this}, os) && Moved(null, t, os)
    {
      target := t;
      new;
      ghost var view := View(ps);
      if t != null {
        t.AddRef();
      }
      assert View(ps + {this}) == view[this := t];
      forall o | o in os
        ensures o.count == Holders(View(ps + {this}), o)
      {
        HoldersAdd(view, this, t, o);
      }
    }

    /** Copying takes the target, then counts it. */
    constructor Copy(r: IntrusivePtr, ghost ps: set<IntrusivePtr>, ghost os: set<Counted>)
      requires Balanced(ps, os) && r in ps
      modifies os
      ensures target == r.target && Balanced(ps + {this}, os) && Moved(null, target, os)
    {
      target := r.target;
      new;
      ghost var view := View(ps);
      if target != null {
        HeldIsCounted(view, r, target);
        target.AddRef();
      }
      assert View(ps + {this}) == view[this := r.target];
      forall o | o in os
        ensures o.count == Holders(View(ps + {this}), o)
      {
        HoldersAdd(view, this, r.target, o);
      }
    }

    /** Moving takes the target over and changes no count. */
    constructor Move(r: IntrusivePtr, ghost ps: set<IntrusivePtr>, ghost os: set<Counted>)
      requires Balanced(ps, os) && r in ps
      modifies r
      ensures target == old(r.target) && r.target == null && Balanced(ps + {this}, os)
    {
      target := r.target;
      new;
      ghost var view := View(ps);
      r.target := null;
      ghost var mid: map<IntrusivePtr, Counted?> := view[r := null];
      assert View(ps + {this}) == mid[this := target];
      forall o | o in os
        ensures Holders(View(ps + {this}), o) == Holders(view, o)
      {
        HoldersSet(view, r, null, o);
        HoldersAdd(mid, this, target, o);
      }
    }

    /** The destructor; the pointer leaves `ps`. */
    method Destroy(ghost ps: set<IntrusivePtr>, ghost os: set<Counted>)
      requires Balanced(ps, os) && this in ps
      modifies os
      ensures Balanced(ps - {this}, os) && Moved(target, null, os)
    {
      ghost var view := View(ps);
      ghost var rest := View(ps - {this});
      assert view == rest[this := target];
      if target != null {
        HeldIsCounted(view, this, target);
        target.Release();
      }
      forall o | o in os
        ensures o.count == Holders(rest, o)
      {
        HoldersAdd(rest, this, target, o);
      }
    }

    method Swap(b: IntrusivePtr, ghost ps: set<IntrusivePtr>, ghost os: set<Counted>)
      requires Balanced(ps, os) && this in ps && b in ps
      modifies this, b
      ensures target == old(b.target) && b.target == old(target) && Balanced(ps, os)
    {
      ghost var view := View(ps);
      var t := target;
      target := b.target;
      b.target := t;
      ghost var mid: map<IntrusivePtr, Counted?> := view[this := view[b]];
      assert View(ps) == mid[b := view[this]];
      forall o | o in os
        ensures Holders(View(ps), o) == Holders(view, o)
      {
        HoldersSet(view, this, view[b], o);
        HoldersSet(mid, b, view[this], o);
      }
    }

    /** Copy assignment, also from itself. */
    method Assign(r: IntrusivePtr, ghost ps: set<IntrusivePtr>, ghost os: set<Counted>)
      requires Balanced(ps, os) && this in ps && r in ps
      modifies this, os
      ensures target == old(r.target) && r.target == old(r.target)
      ensures Balanced(ps, os) && Moved(old(target), target, os)
    {
      if target != r.target {
        var tmp := new IntrusivePtr.Copy(r, ps, os);
        tmp.Swap(this, ps + {tmp}, os);
        tmp.Destroy(ps + {tmp}, os);
        assert ps + {tmp} - {tmp} == ps;
      }
    }

    method AssignRaw(t: Counted?, ghost ps: set<IntrusivePtr>, ghost os: set<Counted>)
      requires Balanced(ps, os) && this in ps && (t != null ==> t in os && t.alive)
      modifies this, os
      ensures target == t && Balanced(ps, os) && Moved(old(target), t, os)
    {
      if target != t {
        var tmp := new IntrusivePtr.FromRaw(t, ps, os);
        tmp.Swap(this, ps + {tmp}, os);
        tmp.Destroy(ps + {tmp}, os);
        assert ps + {tmp} - {tmp} == ps;
      }
    }

    /** Move assignment: the source is emptied, unless it is the pointer itself. */
    method MoveAssign(r: IntrusivePtr, ghost ps: set<IntrusivePtr>, ghost os: set<Counted>)
      requires Balanced(ps, os) && this in ps && r in ps
      modifies this, r, os
      ensures target == old(r.target) && (this != r ==> r.target == null)
      ensures Balanced(ps, os) && (this != r ==> Moved(old(target), null, os)) && (this == r ==> Moved(null, null, os))
    {
      if this != r {
        var tmp := new IntrusivePtr.Move(r, ps, os);
        tmp.Swap(this, ps + {tmp}, os);
        tmp.Destroy(ps + {tmp}, os);
        assert ps + {tmp} - {tmp} == ps;
      }
    }

    method Reset(ghost ps: set<IntrusivePtr>, ghost os: set<Counted>)
      requires Balanced(ps, os) && this in ps
      modifies this, os
      ensures target == null && Balanced(ps, os) && Moved(old(target), null, os)
    {
      var tmp := new IntrusivePtr();
      ghost var view := View(ps);
      assert View(ps + {tmp}) == view[tmp := null];
      forall o | o in os
        ensures Holders(View(ps + {tmp}), o) == Holders(view, o)
      {
        HoldersAdd(view, tmp, null, o);
      }
      tmp.Swap(this, ps + {tmp}, os);
      tmp.Destroy(ps + {tmp}, os);
      assert ps + {tmp} - {tmp} == ps;
    }
  }
}
