/** The project catalogue kept in key-value storage: each project under `project_<id>`, and the list
    of their metadata under `projects_list`. Storage is a map from key to the stored value, and
    serialising a value and parsing it back gives the value itself. */
module ProjectService {
  import opened Wrappers
  import opened Text
  import opened EditorTypes
  import opened Seqs

  datatype Project = Project(id: string, name: string, createdAt: nat, modifiedAt: nat,
                             thumbnail: Option<string>, editorState: EditorState)

  datatype ProjectMetadata = ProjectMetadata(id: string, name: string, createdAt: nat, modifiedAt: nat,
                                             thumbnail: Option<string>)

  /** What `saveProject` is given: a project without its id and timestamps. */
  datatype ProjectDraft = ProjectDraft(name: string, thumbnail: Option<string>, editorState: EditorState)

  /** What `updateProject` is given: the fields present in the update. */
  datatype ProjectUpdate = ProjectUpdate(name: Option<string>, thumbnail: Option<string>, editorState: Option<EditorState>)

  const PROJECTS_KEY := "projects_list"
  const PROJECT_PREFIX := "project_"

  /** The storage key of a project. */
  function Key(id: string): (k: string)
    ensures |k| == |PROJECT_PREFIX| + |id| && k[..|PROJECT_PREFIX|] == PROJECT_PREFIX && k[|PROJECT_PREFIX|..] == id
  {
    PROJECT_PREFIX + id
  }

  /** Different projects have different keys, and no project key is the list's key, so the records and
      the list never overwrite each other. */
  lemma KeysDistinct(a: string, b: string)
    ensures Key(a) == Key(b) ==> a == b
    ensures Key(a) != PROJECTS_KEY
  {
    if Key(a) == Key(b) {
      assert a == Key(a)[|PROJECT_PREFIX|..];
    }
    assert Key(a)[7] == '_' && PROJECTS_KEY[7] == 's';
  }

  /** The contents of the storage: the project records by key, and the metadata list (an absent list
      reads as empty). */
  datatype Catalogue = Catalogue(records: map<string, Project>, list: seq<ProjectMetadata>)

  const EMPTY_CATALOGUE := Catalogue(map[], [])

  function MetadataOf(p: Project): (m: ProjectMetadata)
    ensures m.id == p.id && m.name == p.name && m.createdAt == p.createdAt && m.modifiedAt == p.modifiedAt
    ensures m.thumbnail == p.thumbnail
  {
    ProjectMetadata(p.id, p.name, p.createdAt, p.modifiedAt, p.thumbnail)
  }

  /** `proj_<Date.now()>_<nine random base-36 digits>`; `suffix` stands for the random part. */
  function NewProjectId(now: nat, suffix: string): string {
    "proj_" + NatToDecimal(now) + "_" + suffix
  }

  /** `getProject(id)` */
  function GetProject(c: Catalogue, id: string): Option<Project> {
    if Key(id) in c.records then Some(c.records[Key(id)]) else None
  }

  /** `saveProject(project)` at clock reading `now`: the new catalogue and the new id. */
  function Save(c: Catalogue, draft: ProjectDraft, now: nat, suffix: string): (Catalogue, string) {
    var id := NewProjectId(now, suffix);
    var full := Project(id, draft.name, now, now, draft.thumbnail, draft.editorState);
    (Catalogue(c.records[Key(id) := full], c.list + [MetadataOf(full)]), id)
  }

  /** A saved project reads back with its fields and both timestamps at `now`, its metadata is last in
      the list, and every other project reads back as before. */
  lemma SaveThenGet(c: Catalogue, draft: ProjectDraft, now: nat, suffix: string)
    ensures var (r, id) := Save(c, draft, now, suffix);
      id == NewProjectId(now, suffix)
      && GetProject(r, id) == Some(Project(id, draft.name, now, now, draft.thumbnail, draft.editorState))
      && |r.list| == |c.list| + 1 && r.list[..|c.list|] == c.list
      && r.list[|c.list|] == ProjectMetadata(id, draft.name, now, now, draft.thumbnail)
      && forall other: string | other != id :: GetProject(r, other) == GetProject(c, other)
  {
    var (r, id) := Save(c, draft, now, suffix);
    forall other: string | other != id
      ensures GetProject(r, other) == GetProject(c, other)
    {
      KeysDistinct(other, id);
    }
  }

  /** `{...project, ...updates, modifiedAt: Date.now()}` */
  function Merge(p: Project, u: ProjectUpdate, now: nat): (r: Project)
    ensures r.id == p.id && r.createdAt == p.createdAt && r.modifiedAt == now
    ensures r.name == u.name.GetOr(p.name) && r.thumbnail == (if u.thumbnail.Some? then u.thumbnail else p.thumbnail)
    ensures r.editorState == u.editorState.GetOr(p.editorState)
  {
    Project(p.id, u.name.GetOr(p.name), p.createdAt, now,
            if u.thumbnail.Some? then u.thumbnail else p.thumbnail, u.editorState.GetOr(p.editorState))
  }

  function IdIs(id: string): ProjectMetadata -> bool {
    (m: ProjectMetadata) => m.id == id
  }

  function IdIsNot(id: string): ProjectMetadata -> bool {
    (m: ProjectMetadata) => m.id != id
  }

  /** `updateProject(id, updates)`: throws when the project is missing; otherwise rewrites the record
      and the first list entry with the id, if there is one. */
  function Update(c: Catalogue, id: string, u: ProjectUpdate, now: nat): Result<Catalogue> {
    match GetProject(c, id)
    case None => Err("Project not found")
    case Some(p) =>
      var updated := Merge(p, u, now);
      var list := match FindIndex(c.list, IdIs(id))
        case None => c.list
        case Some(i) => c.list[i := MetadataOf(updated)];
      Ok(Catalogue(c.records[Key(id) := updated], list))
  }

  /** An update of a missing project fails and changes nothing; otherwise it keeps the id and the
      creation time, stamps `now`, and rewrites only the first list entry with the id. */
  lemma UpdateEffect(c: Catalogue, id: string, u: ProjectUpdate, now: nat)
    ensures Update(c, id, u, now).Err? <==> GetProject(c, id).None?
    ensures Update(c, id, u, now).Err? ==> Update(c, id, u, now).message == "Project not found"
    ensures Update(c, id, u, now).Ok? ==>
      var p := GetProject(c, id).value; var r := Update(c, id, u, now).value;
      GetProject(r, id) == Some(Merge(p, u, now))
      && GetProject(r, id).value.id == p.id && GetProject(r, id).value.createdAt == p.createdAt
      && GetProject(r, id).value.modifiedAt == now
      && |r.list| == |c.list|
      && (forall j | 0 <= j < |c.list| && FindIndex(c.list, IdIs(id)) != Some(j) :: r.list[j] == c.list[j])
      && (forall other: string | other != id :: GetProject(r, other) == GetProject(c, other))
  {
    if GetProject(c, id).Some? {
      var r := Update(c, id, u, now).value;
      forall other: string | other != id
        ensures GetProject(r, other) == GetProject(c, other)
      {
        KeysDistinct(other, id);
      }
    }
  }

  /** `deleteProject(id)` */
  function Delete(c: Catalogue, id: string): Catalogue {
    Catalogue(c.records - {Key(id)}, Filter(c.list, IdIsNot(id)))
  }

  /** After a delete the project is gone and no list entry has its id; every other entry is kept, in
      order, and every other project still reads back. */
  lemma DeleteEffect(c: Catalogue, id: string)
    ensures GetProject(Delete(c, id), id).None?
    ensures forall m | m in Delete(c, id).list :: m.id != id
    ensures forall m | m in c.list && m.id != id :: m in Delete(c, id).list
    ensures forall other: string | other != id :: GetProject(Delete(c, id), other) == GetProject(c, other)
  {
    FilterMembers(c.list, IdIsNot(id));
    forall other: string | other != id
      ensures GetProject(Delete(c, id), other) == GetProject(c, other)
    {
      KeysDistinct(other, id);
    }
  }

  /** `duplicateProject(id)`: a copy named `<name> Copy` under a new id. */
  function Duplicate(c: Catalogue, id: string, now: nat, suffix: string): Result<(Catalogue, string)> {
    match GetProject(c, id)
    case None => Err("Project not found")
    case Some(p) => Ok(Save(c, ProjectDraft(p.name + " Copy", p.thumbnail, p.editorState), now, suffix))
  }

  /** `exportProject(id)`: the stored project, which is then serialised. */
  function ExportProject(c: Catalogue, id: string): Option<Project> {
    GetProject(c, id)
  }

  /** `importProject(data)`; `parsed` is what parsing `data` gives, `None` when it does not parse. */
  function Import(c: Catalogue, parsed: Option<Project>, now: nat, suffix: string): Result<(Catalogue, string)> {
    match parsed
    case None => Err("Invalid project data")
    case Some(p) => Ok(Save(c, ProjectDraft(p.name + " (Imported)", p.thumbnail, p.editorState), now, suffix))
  }

  /** Duplicating fails exactly for a missing project. A copy, and an import, is saved under the new
      id with the renamed name, the original thumbnail and editor state, and fresh timestamps. */
  lemma CopiesAreSaved(c: Catalogue, id: string, parsed: Option<Project>, now: nat, suffix: string)
    ensures Duplicate(c, id, now, suffix).Err? <==> GetProject(c, id).None?
    ensures Duplicate(c, id, now, suffix).Ok? ==>
      var p := GetProject(c, id).value; var (r, newId) := Duplicate(c, id, now, suffix).value;
      newId == NewProjectId(now, suffix)
      && GetProject(r, newId) == Some(Project(newId, p.name + " Copy", now, now, p.thumbnail, p.editorState))
    ensures Import(c, parsed, now, suffix).Err? <==> parsed.None?
    ensures Import(c, parsed, now, suffix).Ok? ==>
      var p := parsed.value; var (r, newId) := Import(c, parsed, now, suffix).value;
      GetProject(r, newId) == Some(Project(newId, p.name + " (Imported)", now, now, p.thumbnail, p.editorState))
  {
    if GetProject(c, id).Some? {
      var p := GetProject(c, id).value;
      SaveThenGet(c, ProjectDraft(p.name + " Copy", p.thumbnail, p.editorState), now, suffix);
    }
    if parsed.Some? {
      var p := parsed.value;
      SaveThenGet(c, ProjectDraft(p.name + " (Imported)", p.thumbnail, p.editorState), now, suffix);
    }
  }

  /** A backup restores: importing what `exportProject` gives fails exactly for a missing project, and
      otherwise saves the project as `<name> (Imported)` under the new id while the original stays. */
  lemma ExportThenImport(c: Catalogue, id: string, now: nat, suffix: string)
    ensures Import(c, ExportProject(c, id), now, suffix).Err? <==> GetProject(c, id).None?
    ensures Import(c, ExportProject(c, id), now, suffix).Ok? ==>
      var p := GetProject(c, id).value; var (r, newId) := Import(c, ExportProject(c, id), now, suffix).value;
      GetProject(r, newId) == Some(Project(newId, p.name + " (Imported)", now, now, p.thumbnail, p.editorState))
      && (newId != id ==> GetProject(r, id) == Some(p))
  {
    if GetProject(c, id).Some? {
      var p := GetProject(c, id).value;
      SaveThenGet(c, ProjectDraft(p.name + " (Imported)", p.thumbnail, p.editorState), now, suffix);
    }
  }

  /** Newest first: no entry is more recent than one before it. */
  predicate SortedRecent(s: seq<ProjectMetadata>) {
    forall i, j | 0 <= i < j < |s| :: s[i].modifiedAt >= s[j].modifiedAt
  }

  /** Places `m` after every entry at least as recent, so equally recent entries keep their order. */
  function Insert(s: seq<ProjectMetadata>, m: ProjectMetadata): (r: seq<ProjectMetadata>)
    ensures multiset(r) == multiset(s) + multiset{m}
    decreases |s|
  {
    if s == [] then [m]
    else if s[0].modifiedAt < m.modifiedAt then [m] + s
    else
      assert s == [s[0]] + s[1..];
      [s[0]] + Insert(s[1..], m)
  }

  /** Inserting into a newest-first list keeps it newest first. */
  lemma {:induction false} InsertSorted(s: seq<ProjectMetadata>, m: ProjectMetadata)
    requires SortedRecent(s)
    ensures SortedRecent(Insert(s, m))
    decreases |s|
  {
    if s != [] && s[0].modifiedAt >= m.modifiedAt {
      InsertSorted(s[1..], m);
      InsertBelow(s[1..], m, s[0]);
      ConsSorted(s[0], Insert(s[1..], m));
    }
  }

  /** No entry of an insertion is more recent than `top` when neither `m` nor any entry of the list is. */
  lemma InsertBelow(s: seq<ProjectMetadata>, m: ProjectMetadata, top: ProjectMetadata)
    requires forall k | 0 <= k < |s| :: s[k].modifiedAt <= top.modifiedAt
    requires m.modifiedAt <= top.modifiedAt
    ensures forall x | x in Insert(s, m) :: x.modifiedAt <= top.modifiedAt
  {
    forall x | x in Insert(s, m)
      ensures x.modifiedAt <= top.modifiedAt
    {
      assert x in multiset(Insert(s, m));
      if x != m {
        assert x in multiset(s);
        var k :| 0 <= k < |s| && s[k] == x;
      }
    }
  }

  /** A newest-first list stays newest first under a head at least as recent as all its entries. */
  lemma ConsSorted(h: ProjectMetadata, rest: seq<ProjectMetadata>)
    requires SortedRecent(rest)
    requires forall x | x in rest :: x.modifiedAt <= h.modifiedAt
    ensures SortedRecent([h] + rest)
  {
    var r := [h] + rest;
    forall i, j | 0 <= i < j < |r|
      ensures r[i].modifiedAt >= r[j].modifiedAt
    {
      assert r[j] == rest[j - 1];
      if i == 0 {
        assert rest[j - 1] in rest;
      } else {
        assert r[i] == rest[i - 1];
      }
    }
  }

  /** `projects.sort((a, b) => b.modifiedAt - a.modifiedAt)`: a stable sort, newest first. */
  function SortRecent(s: seq<ProjectMetadata>): seq<ProjectMetadata>
    decreases |s|
  {
    if s == [] then [] else Insert(SortRecent(s[..|s| - 1]), s[|s| - 1])
  }

  /** The sorted list is newest first and holds exactly the entries of the list. */
  lemma {:induction false} SortRecentCorrect(s: seq<ProjectMetadata>)
    ensures SortedRecent(SortRecent(s))
    ensures multiset(SortRecent(s)) == multiset(s)
    decreases |s|
  {
    if s != [] {
      SortRecentCorrect(s[..|s| - 1]);
      InsertSorted(SortRecent(s[..|s| - 1]), s[|s| - 1]);
      assert s == s[..|s| - 1] + [s[|s| - 1]];
    }
  }

  /** `getRecentProjects(limit)`: a zero or absent limit keeps the whole sorted list. */
  function GetRecentProjects(c: Catalogue, limit: Option<int>): seq<ProjectMetadata> {
    var sorted := SortRecent(c.list);
    if limit.None? || limit.value == 0 then sorted else Prefix(sorted, limit.value)
  }

  /** `r` is a newest part of `list`: the entries of `list` less some `rest`, counted with their
      repetitions, and none of `rest` is more recent than any entry of `r`. */
  ghost predicate NewestOf(r: seq<ProjectMetadata>, list: seq<ProjectMetadata>) {
    exists rest: seq<ProjectMetadata> ::
      && multiset(r) + multiset(rest) == multiset(list)
      && forall m, n | m in r && n in rest :: n.modifiedAt <= m.modifiedAt
  }

  /** The recent list is newest first and drawn from the list: all of it without a limit, the `limit`
      most recent with a positive one, all but the `-limit` oldest with a negative one. */
  lemma RecentProjects(c: Catalogue, limit: Option<int>)
    ensures SortedRecent(GetRecentProjects(c, limit))
    ensures forall m | m in GetRecentProjects(c, limit) :: m in c.list
    ensures NewestOf(GetRecentProjects(c, limit), c.list)
    ensures limit.None? || limit.value == 0 ==> multiset(GetRecentProjects(c, limit)) == multiset(c.list)
    ensures limit.Some? && limit.value > 0 ==>
      |GetRecentProjects(c, limit)| == (if limit.value <= |c.list| then limit.value else |c.list|)
    ensures limit.Some? && limit.value < 0 ==>
      |GetRecentProjects(c, limit)| == (if 0 <= |c.list| + limit.value then |c.list| + limit.value else 0)
  {
    var sorted := SortRecent(c.list);
    SortRecentCorrect(c.list);
    assert |sorted| == |c.list| by {
      assert |multiset(sorted)| == |multiset(c.list)|;
    }
    var r := GetRecentProjects(c, limit);
    assert r == sorted[..|r|];
    SortedPrefixNewest(sorted, |r|, c.list);
  }

  /** A prefix of a newest-first arrangement of `list` is newest first, drawn from `list`, and a
      newest part of it. */
  lemma SortedPrefixNewest(sorted: seq<ProjectMetadata>, k: nat, list: seq<ProjectMetadata>)
    requires SortedRecent(sorted) && multiset(sorted) == multiset(list) && k <= |sorted|
    ensures SortedRecent(sorted[..k])
    ensures forall m | m in sorted[..k] :: m in list
    ensures NewestOf(sorted[..k], list)
  {
    var r, rest := sorted[..k], sorted[k..];
    assert sorted == r + rest;
    forall m | m in r
      ensures m in list
    {
      assert m in multiset(sorted);
    }
    SplitOrdered(sorted, k);
    assert multiset(r) + multiset(rest) == multiset(list);
  }

  /** In a newest-first arrangement, nothing after position `k` is more recent than anything before. */
  lemma SplitOrdered(sorted: seq<ProjectMetadata>, k: nat)
    requires SortedRecent(sorted) && k <= |sorted|
    ensures forall m, n | m in sorted[..k] && n in sorted[k..] :: n.modifiedAt <= m.modifiedAt
  {
    forall m, n | m in sorted[..k] && n in sorted[k..]
      ensures n.modifiedAt <= m.modifiedAt
    {
      var i :| 0 <= i < k && sorted[i] == m;
      var j :| k <= j < |sorted| && sorted[j] == n;
    }
  }

  /** The search test of one entry: its name, lowercased, contains the lowercased query. */
  function NameMatches(lowercaseQuery: string): ProjectMetadata -> bool {
    (m: ProjectMetadata) => Includes(ToLower(m.name), lowercaseQuery)
  }

  /** `searchProjects(query)` */
  function Search(c: Catalogue, query: string): seq<ProjectMetadata> {
    Filter(c.list, NameMatches(ToLower(query)))
  }

  /** The search keeps exactly the entries whose lowercased name contains the
      lowercased query; the empty query keeps the whole list. */
  lemma SearchEffect(c: Catalogue, query: string)
    ensures forall m | m in Search(c, query) :: m in c.list && Includes(ToLower(m.name), ToLower(query))
    ensures forall m | m in c.list && Includes(ToLower(m.name), ToLower(query)) :: m in Search(c, query)
    ensures query == "" ==> Search(c, query) == c.list
  {
    FilterMembers(c.list, NameMatches(ToLower(query)));
    if query == "" {
      forall m | m in c.list
        ensures NameMatches(ToLower(query))(m)
      {
        IncludesEmpty(ToLower(m.name));
      }
      FilterAll(c.list, NameMatches(ToLower(query)));
    }
  }

  /** The keys of the listed projects. */
  function ListedKeys(list: seq<ProjectMetadata>): set<string> {
    set i | 0 <= i < |list| :: Key(list[i].id)
  }

  /** `clearAllProjects()`: delete every listed project, then the list. */
  function ClearAll(c: Catalogue): Catalogue {
    Catalogue(c.records - ListedKeys(c.list), [])
  }

  /** After clearing, the list is empty and no project it listed can be read back. */
  lemma ClearAllEffect(c: Catalogue)
    ensures ClearAll(c).list == []
    ensures forall j | 0 <= j < |c.list| :: GetProject(ClearAll(c), c.list[j].id).None?
  {
  }

  /** The storage object. */
  class ProjectStorage {
    var records: map<string, Project>
    var list: seq<ProjectMetadata>

    function Contents(): Catalogue
      reads this
    {
      Catalogue(records, list)
    }

    constructor()
      ensures Contents() == EMPTY_CATALOGUE
    {
      records := map[];
      list := [];
    }

    method SaveProject(draft: ProjectDraft, now: nat, suffix: string) returns (projectId: string)
      modifies this
      ensures (Contents(), projectId) == Save(old(Contents()), draft, now, suffix)
    {
      projectId := "proj_" + NatToDecimal(now) + "_" + suffix;
      var fullProject := Project(projectId, draft.name, now, now, draft.thumbnail, draft.editorState);
      records := records[PROJECT_PREFIX + projectId := fullProject];
      var projects := list;
      var metadata := ProjectMetadata(projectId, fullProject.name, fullProject.createdAt, fullProject.modifiedAt,
                                      fullProject.thumbnail);
      projects := projects + [metadata];
      list := projects;
    }

    method UpdateProject(projectId: string, updates: ProjectUpdate, now: nat) returns (r: Result<()>)
      modifies this
      ensures Update(old(Contents()), projectId, updates, now).Err? ==>
        r == Err("Project not found") && Contents() == old(Contents())
      ensures Update(old(Contents()), projectId, updates, now).Ok? ==>
        r == Ok(()) && Contents() == Update(old(Contents()), projectId, updates, now).value
    {
      if PROJECT_PREFIX + projectId !in records {
        return Err("Project not found");
      }
      var project := records[PROJECT_PREFIX + projectId];
      var updatedProject := Merge(project, updates, now);
      records := records[PROJECT_PREFIX + projectId := updatedProject];
      var projects := list;
      var index := FindIndex(projects, IdIs(projectId));
      if index.Some? {
        projects := projects[index.value := MetadataOf(updatedProject)];
        list := projects;
      }
      r := Ok(());
    }

    method DeleteProject(projectId: string)
      modifies this
      ensures Contents() == Delete(old(Contents()), projectId)
    {
      records := records - {PROJECT_PREFIX + projectId};
      list := Filter(list, IdIsNot(projectId));
    }

    method DuplicateProject(projectId: string, now: nat, suffix: string) returns (r: Result<string>)
      modifies this
      ensures Duplicate(old(Contents()), projectId, now, suffix).Err? ==>
        r == Err("Project not found") && Contents() == old(Contents())
      ensures Duplicate(old(Contents()), projectId, now, suffix).Ok? ==>
        r == Ok(Duplicate(old(Contents()), projectId, now, suffix).value.1)
        && Contents() == Duplicate(old(Contents()), projectId, now, suffix).value.0
    {
      if PROJECT_PREFIX + projectId !in records {
        return Err("Project not found");
      }
      var project := records[PROJECT_PREFIX + projectId];
      var id := SaveProject(ProjectDraft(project.name + " Copy", project.thumbnail, project.editorState), now, suffix);
      r := Ok(id);
    }

    method ImportProject(parsed: Option<Project>, now: nat, suffix: string) returns (r: Result<string>)
      modifies this
      ensures parsed.None? ==> r == Err("Invalid project data") && Contents() == old(Contents())
      ensures parsed.Some? ==>
        r == Ok(Import(old(Contents()), parsed, now, suffix).value.1)
        && Contents() == Import(old(Contents()), parsed, now, suffix).value.0
    {
      if parsed.None? {
        return Err("Invalid project data");
      }
      var project := parsed.value;
      var id := SaveProject(ProjectDraft(project.name + " (Imported)", project.thumbnail, project.editorState), now, suffix);
      r := Ok(id);
    }

    /** The `forEach` of deletes over the list, then the list itself. */
    method ClearAllProjects()
      modifies this
      ensures Contents() == ClearAll(old(Contents()))
    {
      var projects := list;
      for i := 0 to |projects|
        invariant list == old(list)
        invariant records == old(records) - ListedKeys(projects[..i])
      {
        assert ListedKeys(projects[..i + 1]) == ListedKeys(projects[..i]) + {Key(projects[i].id)} by {
          assert forall j | 0 <= j < i :: projects[..i + 1][j] == projects[..i][j];
        }
        records := records - {PROJECT_PREFIX + projects[i].id};
      }
      assert projects[..|projects|] == projects;
      list := [];
    }
  }
}
