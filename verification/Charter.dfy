/** Spawn ceilings: what a charter allows, and when one is no wider than another. */
module Charters {
  import opened Basics

  datatype Permit = Ask | Deny | Go

  datatype FileFacet =
    | NoFile
    | Unbounded
    | Read(path: string, recursive: bool)
    | Write(path: string, recursive: bool)
    | ReadWrite(path: string, recursive: bool)

  datatype MemoryFacet = Ignore | Remember(aspect: Option<string>) | Forget(rememberId: string)

  datatype ToolTag = ToolTag(file: FileFacet, permit: Permit, memory: MemoryFacet)

  datatype Audience = ToParent | ToAny

  datatype Signal = Signal(complete: Permit, audience: Audience)

  datatype Charter = Charter(tag: ToolTag, signal: Signal)

  const DEFAULT_SIGNAL := Signal(Go, ToParent)
  const UNBOUNDED_TAG := ToolTag(Unbounded, Ask, Ignore)

  function NewCharter(tag: ToolTag): Charter {
    Charter(tag, DEFAULT_SIGNAL)
  }

  function PermitRank(p: Permit): nat {
    match p
    case Deny => 0
    case Ask => 1
    case Go => 2
  }

  predicate PermitFits(grant: Permit, ceiling: Permit) {
    PermitRank(grant) <= PermitRank(ceiling)
  }

  predicate SignalWithin(child: Signal, parent: Signal) {
    PermitFits(child.complete, parent.complete) && (child.audience != ToAny || parent.audience == ToAny)
  }

  function FacetPath(f: FileFacet): Option<string> {
    match f
    case Read(path, _) => Some(path)
    case Write(path, _) => Some(path)
    case ReadWrite(path, _) => Some(path)
    case NoFile => None
    case Unbounded => None
  }

  predicate PathUnder(root: string, path: string) {
    if root == "" then !("/" <= path) else path == root || root + "/" <= path
  }

  predicate OpWithin(child: FileFacet, parent: FileFacet) {
    match (parent, child)
    case (ReadWrite(_, _), Read(_, _)) => true
    case (ReadWrite(_, _), Write(_, _)) => true
    case (ReadWrite(_, _), ReadWrite(_, _)) => true
    case (Read(_, _), Read(_, _)) => true
    case (Write(_, _), Write(_, _)) => true
    case _ => false
  }

  predicate FileWithin(child: FileFacet, parent: FileFacet) {
    if child.NoFile? || parent.Unbounded? then true
    else
      match (FacetPath(parent), FacetPath(child))
      case (Some(root), Some(path)) => PathUnder(root, path) && OpWithin(child, parent)
      case _ => false
  }

  predicate MemoryWithin(child: MemoryFacet, parent: MemoryFacet) {
    match (parent, child)
    case (Ignore, Ignore) => true
    case (Remember(None), Remember(_)) => true
    case (Remember(Some(bound)), Remember(Some(grant))) => bound == grant
    case (Forget(_), Forget(_)) => true
    case _ => false
  }

  predicate MemoryAllows(bound: MemoryFacet, tag: MemoryFacet) {
    match (bound, tag)
    case (Forget(boundId), Forget(id)) => boundId == id
    case _ => MemoryWithin(tag, bound)
  }

  /** A card grant fits a ceiling. */
  predicate Allows(c: Charter, tag: ToolTag) {
    PermitFits(tag.permit, c.tag.permit) && FileWithin(tag.file, c.tag.file) && MemoryAllows(c.tag.memory, tag.memory)
  }

  /** One charter is no wider than another. */
  predicate Within(child: Charter, parent: Charter) {
    && PermitFits(child.tag.permit, parent.tag.permit)
    && SignalWithin(child.signal, parent.signal)
    && FileWithin(child.tag.file, parent.tag.file)
    && MemoryWithin(child.tag.memory, parent.tag.memory)
  }

  predicate FileIsNone(c: Charter) {
    c.tag.file.NoFile?
  }

  // ---------------------------------------------------------------- an order

  /** `within` is reflexive and transitive, so a chain of spawns can only narrow. */
  lemma WithinIsAnOrder(a: Charter, b: Charter, c: Charter)
    ensures Within(a, a)
    ensures Within(a, b) && Within(b, c) ==> Within(a, c)
  {
  }

  /**
   A grant allowed by a charter is allowed by every charter it is within, except exactly when
   both name a memory to forget and the names differ: `within` does not compare those ids.
   */
  lemma AllowsLifts(child: Charter, parent: Charter, tag: ToolTag)
    requires Within(child, parent) && Allows(child, tag)
    ensures Allows(parent, tag) <==>
            !(tag.memory.Forget? && parent.tag.memory.Forget? && tag.memory.rememberId != parent.tag.memory.rememberId)
  {
  }

  /** The excepted case occurs: a child bounded to one memory under a parent bounded to another. */
  lemma ForgetEscapes()
    ensures var parent := NewCharter(ToolTag(NoFile, Go, Forget("rem-1")));
            var child := NewCharter(ToolTag(NoFile, Go, Forget("rem-2")));
            Within(child, parent) && Allows(child, child.tag) && !Allows(parent, child.tag)
  {
  }

  /** `within` is exactly "no wider" on grants, for a parent that names no memory to forget. */
  lemma WithinMeansNarrower(child: Charter, parent: Charter)
    requires !parent.tag.memory.Forget?
    ensures Within(child, parent) <==>
            SignalWithin(child.signal, parent.signal) && forall tag | Allows(child, tag) :: Allows(parent, tag)
  {
    assert Allows(child, child.tag);
    forall tag | Within(child, parent) && Allows(child, tag) ensures Allows(parent, tag) {
      AllowsLifts(child, parent, tag);
    }
  }

  // ---------------------------------------------------------------- what the orders mean

  /** A grant fits a permit if it runs freely only where that does, and runs at all only where that does. */
  lemma PermitMeans(grant: Permit, ceiling: Permit)
    ensures PermitFits(grant, ceiling) <==> (grant == Go ==> ceiling == Go) && (grant != Deny ==> ceiling != Deny)
  {
  }

  /** The reads and the writes that a facet opens, path by path. */
  predicate Opens(f: FileFacet, writes: bool, path: string) {
    match f
    case NoFile => false
    case Unbounded => true
    case Read(root, _) => !writes && Beneath(root, path)
    case Write(root, _) => writes && Beneath(root, path)
    case ReadWrite(root, _) => Beneath(root, path)
  }

  /** The path is the root, or goes on below it after a slash; the empty root holds every relative path. */
  predicate Beneath(root: string, path: string) {
    if root == "" then path == "" || path[0] != '/'
    else |root| <= |path| && path[..|root|] == root && (|path| == |root| || path[|root|] == '/')
  }

  lemma BeneathIsUnder(root: string, path: string)
    ensures Beneath(root, path) <==> PathUnder(root, path)
  {
    if root == "" {
      assert "/" <= path <==> path != "" && path[0] == '/';
    } else {
      var below := root + "/";
      assert below[|root|] == '/' && below[..|root|] == root;
      if below <= path {
        assert path[..|below|] == below;
      }
      if |root| < |path| && path[..|root|] == root && path[|root|] == '/' {
        assert path[..|root| + 1] == path[..|root|] + [path[|root|]];
      }
    }
  }

  lemma BeneathTrans(a: string, b: string, c: string)
    requires Beneath(a, b) && Beneath(b, c)
    ensures Beneath(a, c)
  {
    if a != "" && b != "" {
      assert c[..|a|] == c[..|b|][..|a|] == b[..|a|];
    }
  }

  /** A file facet is within another exactly if every read and every write it opens is open there too. */
  lemma FileWithinIsInclusion(child: FileFacet, parent: FileFacet)
    ensures FileWithin(child, parent) <==> forall writes, path | Opens(child, writes, path) :: Opens(parent, writes, path)
  {
    if FacetPath(child).Some? && FacetPath(parent).Some? {
      var (root, own) := (FacetPath(parent).value, FacetPath(child).value);
      BeneathIsUnder(root, own);
      assert Beneath(own, own);
      hide Beneath, PathUnder;
      if FileWithin(child, parent) {
        forall writes, path | Opens(child, writes, path) ensures Opens(parent, writes, path) {
          BeneathTrans(root, own, path);
        }
      } else {
        var writes := child.Write? || (child.ReadWrite? && parent.Read?);
        assert Opens(child, writes, own) && !Opens(parent, writes, own);
      }
    } else if child.Unbounded? && FacetPath(parent).Some? {
      var root := FacetPath(parent).value;
      var outside := if root == "" then "/" else "";
      assert !Beneath(root, outside);
      assert Opens(child, true, outside) && !Opens(parent, true, outside);
    } else if FacetPath(child).Some? && parent.NoFile? {
      var own := FacetPath(child).value;
      assert Beneath(own, own);
      assert Opens(child, true, own) || Opens(child, false, own);
    } else if child.Unbounded? && parent.NoFile? {
      assert Opens(child, true, "");
    }
  }

  /** A memory facet is within one of its own kind: any to forget, and to remember one aspect, or all under all. */
  lemma MemoryMeans(child: MemoryFacet, parent: MemoryFacet)
    ensures MemoryWithin(child, parent) <==>
            && (child.Ignore? <==> parent.Ignore?) && (child.Forget? <==> parent.Forget?)
            && (child.Remember? ==> parent.aspect.None? || child.aspect == parent.aspect)
    ensures MemoryAllows(parent, child) <==> MemoryWithin(child, parent) && (child.Forget? ==> child == parent)
  {
  }

  /** So an allowed grant opens no file and no run that the charter does not. */
  lemma AllowsMeans(c: Charter, tag: ToolTag)
    ensures Allows(c, tag) <==>
            && (tag.permit == Go ==> c.tag.permit == Go) && (tag.permit != Deny ==> c.tag.permit != Deny)
            && (forall writes, path | Opens(tag.file, writes, path) :: Opens(c.tag.file, writes, path))
            && MemoryAllows(c.tag.memory, tag.memory)
  {
    PermitMeans(tag.permit, c.tag.permit);
    FileWithinIsInclusion(tag.file, c.tag.file);
  }

  /** A signal may complete and address only what its parent's may. */
  lemma SignalMeans(child: Signal, parent: Signal)
    ensures SignalWithin(child, parent) <==>
            && (child.complete == Go ==> parent.complete == Go) && (child.complete != Deny ==> parent.complete != Deny)
            && (child.audience == ToAny ==> parent.audience == ToAny)
  {
  }
}
