/** Rotating over an account's project pool (`_select_next_project` and `ensure_project_exists` of
    src/services/token_manager.py). */
module ProjectRotation {
  import opened Prelude
  import opened LexSort
  import opened Rotation

  datatype Project = Project(row: nat, id: string, name: string)

  function Entry(p: Project): Keyed<Project> {
    Keyed([p.row as int] + Codes(p.id), p)
  }

  function Entries(ps: seq<Project>): (es: seq<Keyed<Project>>)
    ensures |es| == |ps| && forall i :: 0 <= i < |ps| ==> es[i] == Entry(ps[i])
  {
    if ps == [] then [] else [Entry(ps[0])] + Entries(ps[1..])
  }

  /** By row, then project id. */
  function SortProjects(ps: seq<Project>): (sorted: seq<Project>)
    ensures |sorted| == |ps|
  {
    Items(Sort(Entries(ps)))
  }

  function Ids(ps: seq<Project>): (ids: seq<string>)
    ensures |ids| == |ps| && forall i :: 0 <= i < |ps| ==> ids[i] == ps[i].id
  {
    if ps == [] then [] else [ps[0].id] + Ids(ps[1..])
  }

  /** The account's memory; an empty id counts as none. */
  function Memory(current: string): Option<string> {
    if current == "" then None else Some(current)
  }

  /** An unset or empty id is no memory. */
  lemma MemoryIs(current: string)
    ensures Memory(current) == None <==> current == ""
    ensures current != "" ==> Memory(current) == Some(current)
  {
  }

  /** The order is by row, and of equal rows by id; it has each project as often as the list. */
  lemma SortedByRow(ps: seq<Project>, i: nat, j: nat)
    requires i < j < |ps|
    ensures var a, b := SortProjects(ps)[i], SortProjects(ps)[j];
            a.row < b.row || (a.row == b.row && LexLeq(Codes(a.id), Codes(b.id)))
    ensures SortProjects(ps)[i] in ps
  {
    var es := Entries(ps);
    var sorted := Sort(es);
    SortSorts(es);
    SortMembers(es);
    forall k | 0 <= k < |sorted| ensures sorted[k] == Entry(sorted[k].item) && sorted[k].item in ps {
      assert sorted[k] in es;
      var m :| 0 <= m < |es| && es[m] == sorted[k];
      assert ps[m] == sorted[k].item;
    }
    var a, b := sorted[i].item, sorted[j].item;
    LexCons(b.row as int, a.row as int, Codes(b.id), Codes(a.id));
  }

  class Account {
    var currentProject: string
    var currentName: string

    /** The position of the current project in the list, if it is there. */
    method FindCurrent(ids: seq<string>) returns (found: Option<nat>)
      ensures found.Some? <==> currentProject in ids
      ensures found.Some? ==> found.value == IndexOf(ids, currentProject)
    {
      var i := 0;
      while i < |ids|
        invariant 0 <= i <= |ids|
        invariant forall k :: 0 <= k < i ==> ids[k] != currentProject
      {
        if ids[i] == currentProject {
          FirstIndex(ids, currentProject, i);
          return Some(i);
        }
        i := i + 1;
      }
      return None;
    }

    /** The next project after the current one; an empty pool is an error. */
    method SelectNextProject(projects: seq<Project>) returns (r: Result<Project, string>)
      ensures projects == [] ==> r.Err?
      ensures projects != [] ==>
                var ordered := SortProjects(projects);
                r == Ok(ordered[NextIndex(Ids(ordered), Memory(currentProject))])
    {
      if projects == [] {
        return Err("No available projects for token");
      }
      var ordered := SortProjects(projects);
      if |ordered| == 1 {
        return Ok(ordered[0]);
      }
      if currentProject != "" {
        var i := FindCurrent(Ids(ordered));
        if i.Some? {
          return Ok(ordered[Successor(i.value, |ordered|)]);
        }
      }
      return Ok(ordered[0]);
    }

    method EnsureProject(projects: seq<Project>) returns (r: Result<string, string>)
      modifies this
      ensures projects == [] ==> r.Err? && currentProject == old(currentProject) && currentName == old(currentName)
      ensures projects != [] ==>
                var ordered := SortProjects(projects);
                var next := ordered[NextIndex(Ids(ordered), Memory(old(currentProject)))];
                r == Ok(next.id) && currentProject == next.id && currentName == next.name
    {
      var next := SelectNextProject(projects);
      if next.Err? {
        return Err(next.error);
      }
      currentProject, currentName := next.value.id, next.value.name;
      return Ok(currentProject);
    }
  }

  /** The ids chosen by `m` calls over the same pool, each remembering the one before. */
  function Chosen(projects: seq<Project>, current: string, m: nat): seq<string>
    requires projects != []
    decreases m
  {
    if m == 0 then []
    else
      var next := Select(Ids(SortProjects(projects)), Memory(current));
      [next] + Chosen(projects, next, m - 1)
  }

  lemma {:induction false} ChosenRotates(projects: seq<Project>, current: string, m: nat)
    requires projects != [] && "" !in Ids(SortProjects(projects))
    ensures Chosen(projects, current, m) == Picks(Ids(SortProjects(projects)), Memory(current), m)
    decreases m
  {
    if m > 0 {
      var ids := Ids(SortProjects(projects));
      var next := Select(ids, Memory(current));
      assert next in ids;
      ChosenRotates(projects, next, m - 1);
    }
  }

  /** With an unchanged pool of n distinct projects, m calls use each floor(m/n) or ceil(m/n) times,
      whichever project was current. */
  lemma ProjectsFair(projects: seq<Project>, ids: seq<string>, current: string, m: nat, id: string)
    requires projects != [] && ids == Ids(SortProjects(projects)) && Distinct(ids) && "" !in ids && id in ids
    ensures |ids| == |projects|
    ensures m / |ids| <= Count(id, Chosen(projects, current, m)) <= (m + |ids| - 1) / |ids|
  {
    ChosenRotates(projects, current, m);
    FairOver(ids, Memory(current), m, id, Chosen(projects, current, m));
  }

  lemma FairOver(ids: seq<string>, last: Option<string>, m: nat, id: string, chosen: seq<string>)
    requires Distinct(ids) && id in ids && chosen == Picks(ids, last, m)
    ensures m / |ids| <= Count(id, chosen) <= (m + |ids| - 1) / |ids|
  {
    Fair(ids, last, m, id);
  }
}
