/** The workspace with its files updated in place, as `Workspace` keeps them. */
module Workspaces {
  import opened Basics
  import opened ObjectIds
  import opened Merkle

  class Workspace {
    const platform: Platform
    const lead: nat
    var files: map<ObjectId, Bytes>
    ghost var hashed: set<Bytes>
    var head: ObjectId
    var refs: map<string, ObjectId>
    var branch: Option<string>

    ghost function Stored(): Objects
      reads this
    {
      Objects(files, hashed)
    }

    ghost function View(): Repo
      reads this
    {
      Repo(Stored(), head, refs, branch)
    }

    constructor Create(platform: Platform, lead: nat)
      ensures this.platform == platform && this.lead == lead
      ensures View() == Merkle.Create(platform)
    {
      this.platform := platform;
      this.lead := lead;
      var payload := platform.encode(Directory(map[]));
      var id := FromPayload(platform.sha, TREE, payload);
      files := map[id := payload];
      hashed := {Frame(TREE, payload)};
      head := id;
      refs := map[];
      branch := None;
    }

    method WriteObject(ghost kind: Bytes, id: ObjectId, payload: Bytes)
      requires id == Identify(platform, kind, payload)
      modifies this`files, this`hashed
      ensures Stored() == Put(platform, old(Stored()), kind, payload)
    {
      hashed := hashed + {Frame(kind, payload)};
      if id !in files {
        files := files[id := payload];
      }
    }

    method PutBlob(payload: Bytes) returns (id: ObjectId)
      modifies this`files, this`hashed
      ensures id == Identify(platform, BLOB, payload) && Stored() == Put(platform, old(Stored()), BLOB, payload)
    {
      id := FromPayload(platform.sha, BLOB, payload);
      WriteObject(BLOB, id, payload);
    }

    method PutTree(t: Directory) returns (id: ObjectId)
      modifies this`files, this`hashed
      ensures id == Identify(platform, TREE, platform.encode(t))
      ensures Stored() == Put(platform, old(Stored()), TREE, platform.encode(t))
    {
      var payload := platform.encode(t);
      id := FromPayload(platform.sha, TREE, payload);
      WriteObject(TREE, id, payload);
    }

    method GetTree(id: ObjectId) returns (r: Result<Directory, StoreError>)
      ensures r == Merkle.GetTree(platform, Stored(), id)
    {
      if id !in files {
        return Err(Missing);
      }
      match platform.decode(files[id])
      case None => return Err(BadJson);
      case Some(t) => return Ok(t);
    }

    method LookupPath(path: Path) returns (r: Result<Option<ObjectId>, StoreError>)
      ensures r == Lookup(platform, Stored(), head, path)
    {
      var root := GetTree(head);
      if root.Err? {
        return Err(root.error);
      }
      if path == [] {
        return Ok(Some(head));
      }
      var tree := root.value;
      var i := 0;
      assert path[0..] == path;
      while i < |path|
        invariant i < |path|
        invariant Walk(platform, Stored(), root.value, path) == Walk(platform, Stored(), tree, path[i..])
      {
        var name := path[i];
        if name !in tree.entries {
          return Ok(None);
        }
        var entry := tree.entries[name];
        var found := ReadHex(entry.id);
        if found.None? {
          return Err(BadHex);
        }
        if i + 1 == |path| {
          return Ok(Some(found.value));
        }
        if entry.kind != Tree {
          return Err(PrefixNotTree);
        }
        var child := GetTree(found.value);
        if child.Err? {
          return Err(child.error);
        }
        assert path[i..][1..] == path[i + 1..];
        tree := child.value;
        i := i + 1;
      }
    }

    method ReadFile(path: Path) returns (r: Result<Option<Bytes>, StoreError>)
      ensures r == Read(platform, Stored(), head, path)
    {
      var found := LookupPath(path);
      if found.Err? {
        return Err(found.error);
      }
      if found.value.None? {
        return Ok(None);
      }
      var id := found.value.value;
      if id !in files {
        return Err(Missing);
      }
      return Ok(Some(files[id]));
    }

    method UpsertAt(t: Directory, path: Path, kind: ResourceKind, id: ObjectId) returns (r: Result<Directory, StoreError>)
      requires path != []
      modifies this`files, this`hashed
      ensures (Stored(), r) == Upsert(platform, old(Stored()), t, path, kind, id)
      decreases |path|
    {
      var name := path[0];
      if |path| == 1 {
        var text := WriteHex(id);
        return Ok(Directory(t.entries[name := TreeEntry(kind, text)]));
      }
      var child := Descend(t, name);
      if child.Err? {
        return Err(child.error);
      }
      var below := UpsertAt(child.value, path[1..], kind, id);
      if below.Err? {
        return Err(below.error);
      }
      var cid := PutTree(below.value);
      var text := WriteHex(cid);
      return Ok(Directory(t.entries[name := TreeEntry(Tree, text)]));
    }

    method Descend(t: Directory, name: string) returns (r: Result<Directory, StoreError>)
      ensures r == ChildOf(platform, Stored(), t, name)
    {
      if name !in t.entries {
        return Ok(Directory(map[]));
      }
      if t.entries[name].kind != Tree {
        return Err(NestUnderFile);
      }
      var cid := ReadHex(t.entries[name].id);
      if cid.None? {
        return Err(BadHex);
      }
      r := GetTree(cid.value);
    }

    method WriteFile(caller: nat, path: Path, bytes: Bytes, stop: Stop) returns (r: Result<ObjectId, StoreError>)
      modifies this
      ensures (View(), r) == Merkle.WriteFile(platform, old(View()), caller == lead, path, bytes, stop)
    {
      if caller != lead {
        return Err(NotLead);
      }
      if path == [] {
        return Err(EmptyPath);
      }
      var committed := CommitAt(path, bytes);
      if committed.Err? {
        return Err(committed.error);
      }
      r := SetHeadAndBranch(committed.value, branch, stop);
    }

    method CommitAt(path: Path, bytes: Bytes) returns (r: Result<ObjectId, StoreError>)
      requires path != []
      modifies this`files, this`hashed
      ensures (Stored(), r) == Commit(platform, old(Stored()), head, path, bytes)
    {
      var blob := PutBlob(bytes);
      var root := GetTree(head);
      if root.Err? {
        return Err(root.error);
      }
      var newRoot := UpsertAt(root.value, path, File, blob);
      if newRoot.Err? {
        return Err(newRoot.error);
      }
      var id := PutTree(newRoot.value);
      return Ok(id);
    }

    method BranchAs(caller: nat, name: string) returns (r: Result<ObjectId, StoreError>)
      modifies this`refs
      ensures (View(), r) == Branch(old(View()), caller == lead, name)
    {
      if caller != lead {
        return Err(NotLead);
      }
      if !IsRefName(name) {
        return Err(BadRef);
      }
      refs := refs[name := head];
      return Ok(head);
    }

    method CheckoutRef(caller: nat, name: string, stop: Stop) returns (r: Result<ObjectId, StoreError>)
      modifies this
      ensures (View(), r) == Checkout(platform, old(View()), caller == lead, name, stop)
      ensures r.Ok? ==> name in old(refs) && head == old(refs)[name] == r.value && branch == Some(name)
      ensures r.Err? && r.error != Interrupted ==> View() == old(View())
      ensures refs == old(refs) && (r.Err? ==> branch == old(branch) && (head == old(head) || (name in old(refs) && head == old(refs)[name])))
    {
      if caller != lead {
        return Err(NotLead);
      }
      if name !in refs {
        return Err(UnknownRef);
      }
      var id := refs[name];
      var tree := GetTree(id);
      if tree.Err? {
        return Err(NotATree);
      }
      r := SetHeadAndBranch(id, Some(name), stop);
    }

    method ResetTo(caller: nat, id: ObjectId, stop: Stop) returns (r: Result<ObjectId, StoreError>)
      modifies this
      ensures (View(), r) == Reset(platform, old(View()), caller == lead, id, stop)
    {
      if caller != lead {
        return Err(NotLead);
      }
      var tree := GetTree(id);
      if tree.Err? {
        return Err(NotATree);
      }
      r := SetHeadAndBranch(id, branch, stop);
    }

    method MergeFastForward(caller: nat, name: string, stop: Stop) returns (r: Result<ObjectId, StoreError>)
      modifies this
      ensures (View(), r) == MergeFf(platform, old(View()), caller == lead, name, stop)
      ensures r.Ok? ==> name in old(refs) && head == old(refs)[name] == r.value
      ensures r.Ok? && branch.Some? ==> branch.value in refs && refs[branch.value] == head
      ensures r.Err? && r.error != Interrupted ==> View() == old(View())
      ensures branch == old(branch) && forall n | n in old(refs) && Some(n) != branch :: n in refs && refs[n] == old(refs)[n]
    {
      if caller != lead {
        return Err(NotLead);
      }
      if name !in refs {
        return Err(UnknownRef);
      }
      var id := refs[name];
      var tree := GetTree(id);
      if tree.Err? {
        return Err(NotATree);
      }
      r := SetHeadAndBranch(id, branch, stop);
    }

    method SetHeadAndBranch(id: ObjectId, name: Option<string>, stop: Stop) returns (r: Result<ObjectId, StoreError>)
      modifies this`head, this`refs, this`branch
      ensures (View(), r) == SetHead(old(View()), id, name, stop)
    {
      if stop == BeforeHead {
        return Err(Interrupted);
      }
      head := id;
      if stop == AfterHead {
        return Err(Interrupted);
      }
      if name.Some? {
        refs := refs[name.value := id];
      }
      if stop == AfterRef {
        return Err(Interrupted);
      }
      branch := name;
      return Ok(id);
    }
  }
}
