/** Join functions that merge the result of a finished sub-traversal back
    onto the traverser that spawned it. Both work on a copy of the parent;
    in this value model the caller's parent is never modified. */
module SubTraversal {
  import opened Outcomes
  import opened Objects

  /** `HasAnyJoin::exec` (e.g. `where(out().out())`): keep the parent as
      it is, whatever the sub-traversal produced. */
  function HasAnyJoin(parent: Traverser, sub: Traverser): (r: Option<Traverser>)
    ensures r.Some?
    ensures r.value == parent
  {
    Some(parent)
  }

  /** `BySubJoin::exec` (e.g. `order().by(out().count())`): the parent must
      hold an element (checked first) and the sub-result an object; that
      object is attached to a copy of the parent's element. */
  function BySubJoin(parent: Traverser, sub: Traverser): (r: Outcome<Option<Traverser>>)
    ensures r.Abort? <==> !parent.head.Elem? || !sub.head.Obj?
    ensures !parent.head.Elem? ==> r == Abort(ParentNotElement)
    ensures parent.head.Elem? && !sub.head.Obj? ==> r == Abort(SubNotObject)
    ensures r.Done? ==> r.value.Some? && r.value.value.head.Elem?
    ensures r.Done? ==> r.value.value.head.graphElement.attached == Some(sub.head.obj)
    ensures r.Done? ==> r.value.value.head.graphElement.element == parent.head.graphElement.element
    ensures r.Done? ==> r.value.value.bindings == parent.bindings && r.value.value.history == parent.history
  {
    match parent.head
    case Elem(g) =>
      (match sub.head
       case Obj(o) => Done(Some(parent.(head := Elem(Attach(g, o)))))
       case _ => Abort(SubNotObject))
    case _ => Abort(ParentNotElement)
  }

  /** The join policies the traversal steps choose from. */
  datatype JoinFunc = HasAny | BySub

  /** `LeftJoinFunction::exec` dispatched on the policy: the any-match
      policy always keeps the parent, the by-sub-traversal policy aborts
      exactly on a shape mismatch. */
  function Exec(f: JoinFunc, parent: Traverser, sub: Traverser): (r: Outcome<Option<Traverser>>)
    ensures f.HasAny? ==> r == Done(Some(parent))
    ensures f.BySub? ==> (r.Abort? <==> !parent.head.Elem? || !sub.head.Obj?)
    ensures f.BySub? && r.Done? ==> r.value.Some? && r.value.value.head.Elem?
    ensures f.BySub? && r.Done? ==> r.value.value.head.graphElement.attached == Some(sub.head.obj)
    ensures f.BySub? && r.Done? ==>
      r.value.value == parent.(head := Elem(Attach(parent.head.graphElement, sub.head.obj)))
    ensures f.BySub? && !parent.head.Elem? ==> r == Abort(ParentNotElement)
    ensures f.BySub? && parent.head.Elem? && !sub.head.Obj? ==> r == Abort(SubNotObject)
  {
    match f
    case HasAny => Done(HasAnyJoin(parent, sub))
    case BySub => BySubJoin(parent, sub)
  }

  /** `JoinFuncGen`: holds a shared join function and hands out copies. */
  datatype JoinFuncGen = JoinFuncGen(func: JoinFunc)

  /** `JoinFuncGen::gen`: the generated function behaves exactly like the
      wrapped one on every parent and sub-result. */
  function Gen(g: JoinFuncGen): (f: JoinFunc)
    ensures forall parent, sub :: Exec(f, parent, sub) == Exec(g.func, parent, sub)
  {
    g.func
  }

  /** `HasAnyJoin` never looks at the sub-result. */
  lemma HasAnyJoinIgnoresSub(parent: Traverser, s1: Traverser, s2: Traverser)
    ensures HasAnyJoin(parent, s1) == HasAnyJoin(parent, s2)
  {
  }

  /** Apart from the attached object, the joined traverser is the parent. */
  lemma BySubJoinChangesOnlyAttached(parent: Traverser, sub: Traverser)
    requires parent.head.Elem? && sub.head.Obj?
    ensures BySubJoin(parent, sub)
         == Done(Some(parent.(head := Elem(parent.head.graphElement.(attached := Some(sub.head.obj))))))
  {
  }

  /** Joining twice leaves only the latest object attached: the result is
      the same as joining the original parent with the second sub-result. */
  lemma BySubJoinLastWriteWins(parent: Traverser, s1: Traverser, s2: Traverser)
    requires parent.head.Elem? && s1.head.Obj? && s2.head.Obj?
    ensures BySubJoin(parent, s1).Done?
    ensures BySubJoin(BySubJoin(parent, s1).value.value, s2) == BySubJoin(parent, s2)
  {
  }
}
