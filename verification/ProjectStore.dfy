/** Projects of many owners: names, folders, and which project is active. */
module ProjectStore {
  import opened Prelude
  import opened Digits
  import Sequences

  /** The host's text functions. */
  datatype Host = Host(trim: string -> string, lower: string -> string)

  // ---- Folder names ----

  predicate Alnum(c: char) { 'a' <= c <= 'z' || '0' <= c <= '9' }

  /** What follows the leading characters that are not letters or digits. */
  function AfterRun(s: string): (r: string)
    ensures |r| <= |s|
  {
    if s == [] || Alnum(s[0]) then s else AfterRun(s[1..])
  }

  /** `s.replace(/[^a-z0-9]+/g, "-")` */
  function Collapse(s: string): string
    decreases |s|
  {
    if s == [] then []
    else if Alnum(s[0]) then [s[0]] + Collapse(s[1..])
    else "-" + Collapse(AfterRun(s[1..]))
  }

  function TrimLeft(s: string): string { if s != [] && s[0] == '-' then TrimLeft(s[1..]) else s }

  function TrimRight(s: string): string {
    if s != [] && s[|s| - 1] == '-' then TrimRight(s[..|s| - 1]) else s
  }

  function Slugify(h: Host, name: string): string {
    var slug := TrimRight(TrimLeft(Collapse(h.lower(h.trim(name)))));
    if slug == [] then "project" else slug
  }

  /** Letters and digits, in words joined by single hyphens. */
  predicate Hyphenated(s: string) {
    && (forall i :: 0 <= i < |s| ==> Alnum(s[i]) || s[i] == '-')
    && forall i :: 0 < i < |s| ==> !(s[i - 1] == '-' && s[i] == '-')
  }

  /** A folder name that needs no escaping anywhere. */
  predicate PathSafe(s: string) { s != [] && Hyphenated(s) && s[0] != '-' && s[|s| - 1] != '-' }

  lemma {:induction false} CollapseHyphenates(s: string)
    ensures Hyphenated(Collapse(s))
    ensures Collapse(s) != [] && Collapse(s)[0] == '-' ==> s != [] && !Alnum(s[0])
    decreases |s|
  {
    if s != [] {
      if Alnum(s[0]) {
        CollapseHyphenates(s[1..]);
      } else {
        AfterRunStarts(s[1..]);
        CollapseHyphenates(AfterRun(s[1..]));
      }
    }
  }

  lemma {:induction false} AfterRunStarts(s: string)
    ensures AfterRun(s) == [] || Alnum(AfterRun(s)[0])
  {
    if s != [] && !Alnum(s[0]) { AfterRunStarts(s[1..]); }
  }

  lemma {:induction false} TrimsHyphenated(s: string)
    requires Hyphenated(s)
    ensures Hyphenated(TrimLeft(s)) && (TrimLeft(s) == [] || TrimLeft(s)[0] != '-')
  {
    if s != [] && s[0] == '-' {
      assert forall i :: 0 <= i < |s[1..]| ==> s[1..][i] == s[i + 1];
      TrimsHyphenated(s[1..]);
    }
  }

  lemma {:induction false} TrimsRight(s: string)
    requires Hyphenated(s) && (s == [] || s[0] != '-')
    ensures TrimRight(s) == [] || PathSafe(TrimRight(s))
  {
    if s != [] && s[|s| - 1] == '-' { TrimsRight(s[..|s| - 1]); }
  }

  lemma {:induction false} SlugIsSafe(h: Host, name: string)
    ensures PathSafe(Slugify(h, name))
  {
    var s := h.lower(h.trim(name));
    CollapseHyphenates(s);
    TrimsHyphenated(Collapse(s));
    TrimsRight(TrimLeft(Collapse(s)));
  }

  lemma {:induction false} CollapseKeeps(s: string)
    requires Hyphenated(s)
    ensures Collapse(s) == s
    decreases |s|
  {
    if s != [] {
      assert forall i :: 0 <= i < |s[1..]| ==> s[1..][i] == s[i + 1];
      CollapseKeeps(s[1..]);
      if !Alnum(s[0]) { assert AfterRun(s[1..]) == s[1..]; }
    }
  }

  /** The host leaves plain lower-case words alone. */
  ghost predicate Sound(h: Host) {
    forall s :: PathSafe(s) ==> h.trim(s) == s && h.lower(s) == s
  }

  /** Every folder name is the folder name of itself, and only path-safe names are. */
  lemma {:induction false} SlugIsIdempotent(h: Host, name: string)
    requires Sound(h)
    ensures Slugify(h, Slugify(h, name)) == Slugify(h, name)
    ensures Slugify(h, name) == name <==> PathSafe(name)
  {
    SlugIsSafe(h, name);
    CollapseKeeps(Slugify(h, name));
    if PathSafe(name) { CollapseKeeps(name); }
  }

  lemma {:induction false} PrintedAlnum(n: nat)
    ensures forall i :: 0 <= i < |Printed(n)| ==> Alnum(Printed(n)[i])
  {
    if n >= 10 { PrintedAlnum(n / 10); }
  }

  lemma {:induction false} NumberedIsSafe(base: string, n: nat)
    requires PathSafe(base)
    ensures PathSafe(Numbered(base, n))
  {
    PrintedAlnum(n);
    var s := Numbered(base, n);
    assert forall i :: 0 <= i < |base| ==> s[i] == base[i];
    assert forall i :: |base| < i < |s| ==> s[i] == Printed(n)[i - |base| - 1];
  }

  function Numbered(base: string, n: nat): string { base + "-" + Printed(n) }

  lemma {:induction false} NumberedDiffer(base: string, m: nat, n: nat)
    requires Numbered(base, m) == Numbered(base, n)
    ensures m == n
  {
    assert Numbered(base, m)[|base| + 1..] == Printed(m) && Numbered(base, n)[|base| + 1..] == Printed(n);
    PrintedInjective(m, n);
  }

  /** The first free name: `base`, or `base` with the least number from 2 on. The search ends because only so
      many names can be busy. */
  method UniqueSlug(base: string, taken: set<string>, onDisk: set<string>) returns (slug: string)
    ensures slug !in taken && slug !in onDisk
    ensures slug == base || base in taken + onDisk
    ensures slug != base ==> exists n: nat ::
      n >= 2 && slug == Numbered(base, n) && forall m :: 2 <= m < n ==> Numbered(base, m) in taken + onDisk
  {
    if base !in taken && base !in onDisk { return base; }
    var n := 2;
    ghost var unseen := taken + onDisk;
    while Numbered(base, n) in taken || Numbered(base, n) in onDisk
      invariant n >= 2 && forall m :: 2 <= m < n ==> Numbered(base, m) in taken + onDisk
      invariant unseen <= taken + onDisk
      invariant forall m: nat :: m >= n && Numbered(base, m) in taken + onDisk ==> Numbered(base, m) in unseen
      decreases |unseen|
    {
      ghost var x := Numbered(base, n);
      forall m: nat | m >= n + 1 && Numbered(base, m) in unseen ensures Numbered(base, m) in unseen - {x} {
        if Numbered(base, m) == x { NumberedDiffer(base, m, n); }
      }
      unseen := unseen - {x};
      n := n + 1;
    }
    slug := Numbered(base, n);
  }

  // ---- Projects ----

  /** A folder: `PROJECTS_ROOT/<owner>/<slug>`. */
  datatype Folder = Folder(owner: string, slug: string)

  datatype Project = Project(id: string, owner: string, name: string, path: Folder, active: bool, includeInLlm: bool)

  type Projects = seq<Project>

  ghost predicate UniqueIds(ps: Projects) { forall i, j :: 0 <= i < j < |ps| ==> ps[i].id != ps[j].id }

  /** Within an owner no two names are equal ignoring case. */
  ghost predicate UniqueNames(h: Host, ps: Projects) {
    forall i, j :: 0 <= i < j < |ps| && ps[i].owner == ps[j].owner ==> h.lower(ps[i].name) != h.lower(ps[j].name)
  }

  /** Every folder lies under its owner's root, and no two are the same. */
  ghost predicate UniquePaths(ps: Projects) {
    && (forall i :: 0 <= i < |ps| ==> ps[i].path.owner == ps[i].owner)
    && forall i, j :: 0 <= i < j < |ps| ==> ps[i].path != ps[j].path
  }

  ghost predicate HasActive(ps: Projects, owner: string) {
    exists j :: 0 <= j < |ps| && ps[j].owner == owner && ps[j].active
  }

  /** Every owner that has a project has exactly one active. */
  ghost predicate OneActive(ps: Projects) {
    && (forall i :: 0 <= i < |ps| ==> HasActive(ps, ps[i].owner))
    && forall i, j :: 0 <= i < j < |ps| && ps[i].owner == ps[j].owner ==> !(ps[i].active && ps[j].active)
  }

  ghost predicate Named(h: Host, ps: Projects) { UniqueIds(ps) && UniqueNames(h, ps) && UniquePaths(ps) }

  ghost predicate Consistent(h: Host, ps: Projects) { Named(h, ps) && OneActive(ps) }

  // ---- What the operations do to the list ----

  /** `findIndex` by id; the length when there is none. */
  function IndexOf(ps: Projects, id: string): nat { Sequences.FindIndex(ps, (p: Project) => p.id == id) }

  /** Whether an operation on project `id` finds it: someone else's project is not found without the override. */
  predicate Reachable(ps: Projects, id: string, user: string, anyOwner: bool) {
    var i := IndexOf(ps, id);
    i < |ps| && (anyOwner || ps[i].owner == user)
  }

  function ActiveOnly(p: Project, target: Project): Project {
    if p.owner == target.owner then p.(active := p.id == target.id) else p
  }

  /** The owner's projects but the target made inactive. */
  function Activated(ps: Projects, i: nat, n: nat): (r: Projects)
    requires i < |ps| && n <= |ps|
    ensures |r| == |ps|
    ensures forall k :: 0 <= k < n ==> r[k] == ActiveOnly(ps[k], ps[i])
    ensures forall k :: n <= k < |ps| ==> r[k] == ps[k]
  {
    if n == 0 then ps else Activated(ps, i, n - 1)[n - 1 := ActiveOnly(ps[n - 1], ps[i])]
  }

  lemma {:induction false} ActivatedStep(ps: Projects, i: nat, k: nat, qs: Projects)
    requires i < |ps| && k < |ps| && qs == Activated(ps, i, k)
    ensures Activated(ps, i, k + 1)
      == if qs[k].owner == ps[i].owner then qs[k := qs[k].(active := qs[k].id == ps[i].id)] else qs
  {
    assert qs[k := qs[k]] == qs;
  }

  function Removed(ps: Projects, i: nat): Projects
    requires i < |ps|
  {
    ps[..i] + ps[i + 1..]
  }

  function FirstOf(ps: Projects, owner: string): nat { Sequences.FindIndex(ps, (p: Project) => p.owner == owner) }

  /** After a removal, the owner's first project takes over if the removed one was active. */
  function Promoted(ps: Projects, removed: Project): Projects {
    var j := FirstOf(ps, removed.owner);
    if removed.active && j < |ps| then ps[j := ps[j].(active := true)] else ps
  }

  predicate SameName(h: Host, p: Project, owner: string, name: string) {
    p.owner == owner && h.lower(p.name) == h.lower(name)
  }

  /** The owner already has a project of that name. */
  ghost predicate Exists(h: Host, ps: Projects, owner: string, name: string) {
    exists i :: 0 <= i < |ps| && SameName(h, ps[i], owner, name)
  }

  /** Another project of the owner has that name. */
  predicate NameTaken(h: Host, ps: Projects, owner: string, name: string, except: string) {
    exists i :: 0 <= i < |ps| && ps[i].id != except && SameName(h, ps[i], owner, name)
  }

  /** A rename to the name of another project of the same owner. */
  predicate Clashes(h: Host, ps: Projects, id: string, name: Option<string>) {
    var i := IndexOf(ps, id);
    i < |ps| && name.Some? && h.trim(name.value) != [] && NameTaken(h, ps, ps[i].owner, h.trim(name.value), id)
  }

  // ---- Each of them keeps the list consistent ----

  lemma {:induction false} AddNamed(h: Host, ps: Projects, p: Project)
    requires Named(h, ps)
    requires forall i :: 0 <= i < |ps| ==> ps[i].id != p.id
    requires forall i :: 0 <= i < |ps| && ps[i].owner == p.owner ==> h.lower(ps[i].name) != h.lower(p.name)
    requires p.path.owner == p.owner
    requires forall i :: 0 <= i < |ps| && ps[i].owner == p.owner ==> ps[i].path.slug != p.path.slug
    ensures Named(h, ps + [p])
  {
    forall i | 0 <= i < |ps| ensures ps[i].path != p.path { assert ps[i].path.owner == ps[i].owner; }
  }

  lemma {:induction false} StillActive(ps: Projects, qs: Projects, owner: string)
    requires HasActive(ps, owner) && |ps| <= |qs|
    requires forall i :: 0 <= i < |ps| && ps[i].active ==> qs[i].active && qs[i].owner == ps[i].owner
    ensures HasActive(qs, owner)
  {
    var j :| 0 <= j < |ps| && ps[j].owner == owner && ps[j].active;
    assert qs[j].active;
  }

  lemma {:induction false} AddActive(ps: Projects, p: Project)
    requires OneActive(ps)
    requires p.active <==> forall i :: 0 <= i < |ps| ==> ps[i].owner != p.owner
    ensures OneActive(ps + [p])
  {
    var qs := ps + [p];
    forall i | 0 <= i < |qs| ensures HasActive(qs, qs[i].owner) {
      if i < |ps| {
        assert HasActive(ps, ps[i].owner);
        StillActive(ps, qs, ps[i].owner);
      } else if p.active {
        assert qs[|ps|] == p;
      } else {
        var k :| 0 <= k < |ps| && ps[k].owner == p.owner;
        assert HasActive(ps, ps[k].owner);
        StillActive(ps, qs, p.owner);
      }
    }
  }

  /** Flags do not matter to ids, names and folders. */
  lemma {:induction false} FlagsKeepNamed(h: Host, ps: Projects, qs: Projects)
    requires Named(h, ps) && |qs| == |ps|
    requires forall k :: 0 <= k < |ps| ==> qs[k].id == ps[k].id && qs[k].owner == ps[k].owner && qs[k].name == ps[k].name && qs[k].path == ps[k].path
    ensures Named(h, qs)
  {}

  lemma {:induction false} UpdateKeepsNamed(h: Host, ps: Projects, i: nat, q: Project)
    requires Named(h, ps) && i < |ps| && q.id == ps[i].id && q.owner == ps[i].owner && q.path == ps[i].path
    requires forall k :: 0 <= k < |ps| && k != i && ps[k].owner == q.owner ==> h.lower(ps[k].name) != h.lower(q.name)
    ensures Named(h, ps[i := q])
  {}

  lemma {:induction false} UpdateKeepsActive(ps: Projects, i: nat, q: Project)
    requires OneActive(ps) && i < |ps| && q.owner == ps[i].owner && q.active == ps[i].active
    ensures OneActive(ps[i := q])
  {
    var qs := ps[i := q];
    forall k | 0 <= k < |qs| ensures HasActive(qs, qs[k].owner) {
      assert HasActive(ps, ps[k].owner);
      var j :| 0 <= j < |ps| && ps[j].owner == ps[k].owner && ps[j].active;
      assert qs[j].active && qs[j].owner == ps[j].owner;
    }
  }

  lemma {:induction false} UpdateKeeps(h: Host, ps: Projects, i: nat, q: Project)
    requires Consistent(h, ps) && i < |ps|
    requires q.id == ps[i].id && q.owner == ps[i].owner && q.path == ps[i].path && q.active == ps[i].active
    requires forall k :: 0 <= k < |ps| && k != i && ps[k].owner == q.owner ==> h.lower(ps[k].name) != h.lower(q.name)
    ensures Consistent(h, ps[i := q])
  {
    UpdateKeepsNamed(h, ps, i, q);
    UpdateKeepsActive(ps, i, q);
  }

  lemma {:induction false} ActivateKeeps(h: Host, ps: Projects, i: nat)
    requires Consistent(h, ps) && i < |ps|
    ensures Consistent(h, Activated(ps, i, |ps|))
  {
    var qs := Activated(ps, i, |ps|);
    FlagsKeepNamed(h, ps, qs);
    forall k | 0 <= k < |qs| ensures HasActive(qs, qs[k].owner) {
      if ps[k].owner == ps[i].owner {
        assert qs[i].active && qs[i].owner == qs[k].owner;
      } else {
        ActivateElsewhere(ps, i, k);
      }
    }
    ActivateOne(ps, i);
  }

  lemma {:induction false} ActivateElsewhere(ps: Projects, i: nat, k: nat)
    requires OneActive(ps) && i < |ps| && k < |ps| && ps[k].owner != ps[i].owner
    ensures HasActive(Activated(ps, i, |ps|), ps[k].owner)
  {
    assert HasActive(ps, ps[k].owner);
    var j :| 0 <= j < |ps| && ps[j].owner == ps[k].owner && ps[j].active;
    assert Activated(ps, i, |ps|)[j] == ps[j];
  }

  lemma {:induction false} ActivateOne(ps: Projects, i: nat)
    requires OneActive(ps) && UniqueIds(ps) && i < |ps|
    ensures var qs := Activated(ps, i, |ps|);
      forall a, b :: 0 <= a < b < |qs| && qs[a].owner == qs[b].owner ==> !(qs[a].active && qs[b].active)
  {
    var qs := Activated(ps, i, |ps|);
    forall a, b | 0 <= a < b < |qs| && qs[a].owner == qs[b].owner ensures !(qs[a].active && qs[b].active) {
      assert qs[a] == ActiveOnly(ps[a], ps[i]) && qs[b] == ActiveOnly(ps[b], ps[i]);
      assert ps[a].id != ps[b].id;
    }
  }

  /** Where a project of the shorter list was. */
  function Origin(i: nat, k: nat): nat { if k < i then k else k + 1 }

  lemma {:induction false} RemovedAt(ps: Projects, i: nat)
    requires i < |ps|
    ensures |Removed(ps, i)| == |ps| - 1
    ensures forall k :: 0 <= k < |ps| - 1 ==> Removed(ps, i)[k] == ps[Origin(i, k)]
  {}

  lemma {:induction false} RemovedNamed(h: Host, ps: Projects, i: nat)
    requires Named(h, ps) && i < |ps|
    ensures Named(h, Removed(ps, i))
  {
    RemovedAt(ps, i);
  }

  lemma {:induction false} DeleteKeeps(h: Host, ps: Projects, i: nat)
    requires Consistent(h, ps) && i < |ps|
    ensures Consistent(h, Promoted(Removed(ps, i), ps[i]))
  {
    var rs := Removed(ps, i);
    var qs := Promoted(rs, ps[i]);
    RemovedNamed(h, ps, i);
    FlagsKeepNamed(h, rs, qs);
    forall k | 0 <= k < |qs| ensures HasActive(qs, qs[k].owner) {
      DeleteLeavesActive(h, ps, i, k);
    }
    forall a, b | 0 <= a < b < |qs| && qs[a].owner == qs[b].owner ensures !(qs[a].active && qs[b].active) {
      DeleteOne(ps, i, a, b);
    }
  }

  lemma {:induction false} DeleteOne(ps: Projects, i: nat, a: nat, b: nat)
    requires OneActive(ps) && i < |ps| && a < b < |ps| - 1
    ensures var qs := Promoted(Removed(ps, i), ps[i]);
      |qs| == |ps| - 1 && (qs[a].owner == qs[b].owner ==> !(qs[a].active && qs[b].active))
  {
    RemovedAt(ps, i);
    var rs := Removed(ps, i);
    var m, n := Origin(i, a), Origin(i, b);
    assert rs[a] == ps[m] && rs[b] == ps[n] && m < n;
    if ps[m].owner == ps[n].owner {
      assert !(ps[m].active && ps[n].active);
      if ps[i].active && ps[m].owner == ps[i].owner {
        assert !ps[m].active && !ps[n].active;
      }
    }
  }

  lemma {:induction false} DeleteLeavesActive(h: Host, ps: Projects, i: nat, k: nat)
    requires Consistent(h, ps) && i < |ps| && k < |ps| - 1
    ensures var qs := Promoted(Removed(ps, i), ps[i]); k < |qs| && HasActive(qs, qs[k].owner)
  {
    var rs, gone := Removed(ps, i), ps[i];
    var qs := Promoted(rs, gone);
    RemovedAt(ps, i);
    var owner := rs[k].owner;
    assert owner == ps[Origin(i, k)].owner;
    assert HasActive(ps, owner);
    var j :| 0 <= j < |ps| && ps[j].owner == owner && ps[j].active;
    if j == i {
      PromotedIsActive(rs, gone, k);
    } else {
      var m := if j < i then j else j - 1;
      assert Origin(i, m) == j && rs[m] == ps[j];
      PromotedKeeps(rs, gone, m);
    }
  }

  lemma {:induction false} PromotedIsActive(rs: Projects, gone: Project, k: nat)
    requires gone.active && k < |rs| && rs[k].owner == gone.owner
    ensures |Promoted(rs, gone)| == |rs| && Promoted(rs, gone)[k].owner == gone.owner && HasActive(Promoted(rs, gone), gone.owner)
  {
    var f, qs := FirstOf(rs, gone.owner), Promoted(rs, gone);
    assert f < |rs| && qs[f].active && qs[f].owner == gone.owner;
  }

  lemma {:induction false} PromotedKeeps(rs: Projects, gone: Project, m: nat)
    requires m < |rs| && rs[m].active
    ensures HasActive(Promoted(rs, gone), rs[m].owner)
  {
    var qs := Promoted(rs, gone);
    assert |qs| == |rs| && qs[m].active && qs[m].owner == rs[m].owner;
  }

  // ---- What an owner sees ----

  /** `listProjects` for one owner. */
  function Owned(ps: Projects, owner: string): Projects {
    if ps == [] then [] else
    Owned(ps[..|ps| - 1], owner) + if ps[|ps| - 1].owner == owner then [ps[|ps| - 1]] else []
  }

  lemma {:induction false} OwnedSplits(a: Projects, b: Projects, owner: string)
    ensures Owned(a + b, owner) == Owned(a, owner) + Owned(b, owner)
  {
    if b == [] {
      assert a + b == a;
    } else {
      var front, p := b[..|b| - 1], b[|b| - 1];
      OwnedSplits(a, front, owner);
      Sequences.Front(b);
      Sequences.Assoc(a, front, [p]);
      Sequences.Push(a + front, p);
      Sequences.Assoc(Owned(a, owner), Owned(front, owner), if p.owner == owner then [p] else []);
    }
  }

  lemma {:induction false} OwnedSame(ps: Projects, qs: Projects, owner: string)
    requires |qs| == |ps|
    requires forall k :: 0 <= k < |ps| ==> qs[k].owner == ps[k].owner && (ps[k].owner == owner ==> qs[k] == ps[k])
    ensures Owned(qs, owner) == Owned(ps, owner)
  {
    if ps != [] { OwnedSame(ps[..|ps| - 1], qs[..|qs| - 1], owner); }
  }

  /** Whatever is done to an owner's project, by an administrator too, no other owner sees a change. */
  lemma {:induction false} OthersSeeNoChange(ps: Projects, i: nat, p: Project, other: string)
    requires i < |ps| && ps[i].owner == p.owner != other
    ensures Owned(ps + [p], other) == Owned(ps, other)
    ensures Owned(ps[i := p], other) == Owned(ps, other)
    ensures Owned(Activated(ps, i, |ps|), other) == Owned(ps, other)
    ensures Owned(Promoted(Removed(ps, i), ps[i]), other) == Owned(ps, other)
  {
    OwnedSplits(ps, [p], other);
    OwnedOne(p, other);
    OwnedSame(ps, ps[i := p], other);
    OwnedSame(ps, Activated(ps, i, |ps|), other);
    OwnedSame(Removed(ps, i), Promoted(Removed(ps, i), ps[i]), other);
    RemovalUnseen(ps, i, other);
  }

  lemma {:induction false} RemovalUnseen(ps: Projects, i: nat, other: string)
    requires i < |ps| && ps[i].owner != other
    ensures Owned(Removed(ps, i), other) == Owned(ps, other)
  {
    var a, p, b := ps[..i], ps[i], ps[i + 1..];
    assert ps == a + ([p] + b);
    OwnedSplits(a, b, other);
    OwnedSplits(a, [p] + b, other);
    OwnedSplits([p], b, other);
    OwnedOne(p, other);
    assert [] + Owned(b, other) == Owned(b, other);
  }

  lemma {:induction false} OwnedOne(p: Project, owner: string)
    ensures Owned([p], owner) == if p.owner == owner then [p] else []
  {
    assert [p][..0] == [];
  }

  datatype Updated = NotFound | NameRequired | NameExists | Done(project: Project)

  class Store {
    const host: Host
    var projects: Projects

    constructor (host: Host)
      ensures Valid() && this.host == host && projects == []
    {
      this.host, projects := host, [];
    }

    ghost predicate Valid()
      reads this
    {
      Consistent(host, projects)
    }

    /** `id` is the random id drawn for this call; `onDisk` are the folders already under the owner's root, and
        the last two say whether the folders could be made. */
    method AddProject(id: string, user: string, name: string, onDisk: set<string>, rootOk: bool, folderOk: bool)
      returns (r: Option<Project>)
      requires Valid() && forall i :: 0 <= i < |projects| ==> projects[i].id != id
      modifies this
      ensures Valid()
      ensures r.Some? <==> host.trim(name) != [] && !Exists(host, old(projects), user, host.trim(name)) && rootOk && folderOk
      ensures r.None? ==> projects == old(projects)
      ensures r.Some? ==> projects == old(projects) + [r.value]
      ensures r.Some? ==> r.value.id == id && r.value.owner == user && r.value.name == host.trim(name) && !r.value.includeInLlm
      ensures r.Some? ==> PathSafe(r.value.path.slug) && r.value.path.slug !in onDisk
    {
      var trimmed := host.trim(name);
      if trimmed == [] { return None; }
      var taken, mine, exists' := OwnFolders(user, trimmed);
      if exists' { return None; }
      if !rootOk { return None; }
      var base := Slugify(host, trimmed);
      var slug := UniqueSlug(base, taken, onDisk);
      SlugIsSafe(host, trimmed);
      if slug != base {
        ghost var n: nat :| n >= 2 && slug == Numbered(base, n);
        NumberedIsSafe(base, n);
      }
      if !folderOk { return None; }
      var p := Project(id, user, trimmed, Folder(user, slug), mine == 0, false);
      AddNamed(host, projects, p);
      AddActive(projects, p);
      projects := projects + [p];
      r := Some(p);
    }

    /** One pass over the owner's projects: their folders, how many there are, and whether the name exists. */
    method OwnFolders(user: string, name: string) returns (taken: set<string>, mine: nat, found: bool)
      ensures forall i :: 0 <= i < |projects| && projects[i].owner == user ==> projects[i].path.slug in taken
      ensures mine == 0 <==> forall i :: 0 <= i < |projects| ==> projects[i].owner != user
      ensures found <==> Exists(host, projects, user, name)
    {
      taken, mine, found := {}, 0, false;
      for i := 0 to |projects|
        invariant forall k :: 0 <= k < i && projects[k].owner == user ==> projects[k].path.slug in taken
        invariant mine == 0 <==> forall k :: 0 <= k < i ==> projects[k].owner != user
        invariant found <==> Exists(host, projects[..i], user, name)
      {
        if projects[i].owner == user {
          taken, mine := taken + {projects[i].path.slug}, mine + 1;
          found := found || SameName(host, projects[i], user, name);
        }
      }
      assert projects[..|projects|] == projects;
    }

    method UpdateProject(id: string, user: string, name: Option<string>, includeInLlm: Option<bool>, anyOwner: bool)
      returns (r: Updated)
      requires Valid()
      modifies this
      ensures Valid()
      ensures r.NotFound? <==> !Reachable(old(projects), id, user, anyOwner)
      ensures !r.Done? ==> projects == old(projects)
      ensures r.Done? ==> projects == old(projects)[IndexOf(old(projects), id) := r.project]
      ensures r.Done? ==> var p := old(projects)[IndexOf(old(projects), id)];
        r.project == p.(name := if name.Some? then host.trim(name.value) else p.name,
                        includeInLlm := if includeInLlm.Some? then includeInLlm.value else p.includeInLlm)
      ensures r.NameRequired? <==> Reachable(old(projects), id, user, anyOwner) && name.Some? && host.trim(name.value) == []
      ensures r.NameExists? <==> Reachable(old(projects), id, user, anyOwner) && Clashes(host, old(projects), id, name)
    {
      var i := IndexOf(projects, id);
      if i == |projects| || (!anyOwner && projects[i].owner != user) { return NotFound; }
      var p := projects[i];
      if name.Some? {
        var trimmed := host.trim(name.value);
        if trimmed == [] { return NameRequired; }
        if NameTaken(host, projects, p.owner, trimmed, id) { return NameExists; }
        p := p.(name := trimmed);
      }
      if includeInLlm.Some? { p := p.(includeInLlm := includeInLlm.value); }
      UpdateKeeps(host, projects, i, p);
      projects := projects[i := p];
      r := Done(p);
    }

    method SetActiveProject(id: string, user: string, anyOwner: bool) returns (found: bool)
      requires Valid()
      modifies this
      ensures Valid()
      ensures found <==> Reachable(old(projects), id, user, anyOwner)
      ensures projects == if found then Activated(old(projects), IndexOf(old(projects), id), |old(projects)|) else old(projects)
    {
      var t := IndexOf(projects, id);
      if t == |projects| || (!anyOwner && projects[t].owner != user) { return false; }
      ActivateKeeps(host, projects, t);
      SetFlags(t);
      found := true;
    }

    /** Of the owner's projects the one at `t` becomes active. */
    method SetFlags(t: nat)
      requires t < |projects|
      modifies this`projects
      ensures projects == Activated(old(projects), t, |old(projects)|)
    {
      ghost var ps := projects;
      var target := projects[t];
      for k := 0 to |projects|
        modifies this`projects
        invariant projects == Activated(ps, t, k)
      {
        ActivatedStep(ps, t, k, projects);
        if projects[k].owner == target.owner {
          projects := projects[k := projects[k].(active := projects[k].id == target.id)];
        }
      }
    }

    method GetActiveProject(user: string) returns (r: Option<Project>)
      requires Valid()
      ensures r.Some? <==> Owned(projects, user) != []
      ensures r.Some? ==> r.value in projects && r.value.owner == user && r.value.active
    {
      OwnedMembers(projects, user);
      for i := 0 to |projects|
        invariant forall k :: 0 <= k < i ==> !(projects[k].owner == user && projects[k].active)
      {
        if projects[i].owner == user && projects[i].active { return Some(projects[i]); }
      }
      r := None;
    }

    method DeleteProject(id: string, user: string, anyOwner: bool) returns (deleted: bool)
      requires Valid()
      modifies this
      ensures Valid()
      ensures deleted <==> Reachable(old(projects), id, user, anyOwner)
      ensures projects == if deleted
        then Promoted(Removed(old(projects), IndexOf(old(projects), id)), old(projects)[IndexOf(old(projects), id)])
        else old(projects)
    {
      var index := IndexOf(projects, id);
      if index == |projects| || (!anyOwner && projects[index].owner != user) { return false; }
      DeleteKeeps(host, projects, index);
      RemoveAt(index);
      deleted := true;
    }

    /** The project at `index` goes; if it was active, its owner's first one takes over. */
    method RemoveAt(index: nat)
      requires index < |projects|
      modifies this`projects
      ensures projects == Promoted(Removed(old(projects), index), old(projects)[index])
    {
      var removed := projects[index];
      projects := projects[..index] + projects[index + 1..];
      if removed.active {
        var next := FirstOf(projects, removed.owner);
        if next < |projects| { projects := projects[next := projects[next].(active := true)]; }
      }
    }
  }

  lemma {:induction false} OwnedMembers(ps: Projects, owner: string)
    ensures Owned(ps, owner) != [] <==> exists i :: 0 <= i < |ps| && ps[i].owner == owner
  {
    if ps != [] {
      OwnedMembers(ps[..|ps| - 1], owner);
      assert ps[|ps| - 1].owner == owner ==> Owned(ps, owner) != [];
    }
  }
}
