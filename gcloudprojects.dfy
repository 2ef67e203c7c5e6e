/**
 * The project metadata cache of internal/gcloud/projects.go, taken one
 * operation at a time (its locks are not modelled). The rows of
 * `gcloud projects list` are an input: ProjectsListAllInfo is not part of this model.
 */
module GcloudProjects {
  import opened Wrappers

  datatype Project = Project(id: string, name: string, number: string)

  /** A row of the project listing has an ID, a name and a number column. */
  predicate RowsOk(rows: seq<seq<string>>) {
    forall i :: 0 <= i < |rows| ==> |rows[i]| >= 3
  }

  /** One project per row, in row order, from columns 0, 1 and 2. */
  function ProjectsOf(rows: seq<seq<string>>): (ps: seq<Project>)
    requires RowsOk(rows)
    ensures |ps| == |rows|
  {
    seq(|rows|, i requires 0 <= i < |rows| => Project(rows[i][0], rows[i][1], rows[i][2]))
  }

  /** The first project with the given ID. */
  function FindProject(projects: seq<Project>, id: string): Option<Project> {
    if projects == [] then None
    else if projects[0].id == id then Some(projects[0])
    else FindProject(projects[1..], id)
  }

  class ProjectMetadata {
    var cache: array?<Project>
    var warmupInProgress: bool

    constructor()
      ensures cache == null && !warmupInProgress
    {
      cache := null;
      warmupInProgress := false;
    }

    /**
     * warmupCache: nothing happens when the cache is already filled or a warm-up
     * is in progress; otherwise the cache is filled from the listing by index and
     * the in-progress flag is cleared again.
     */
    method WarmupCache(rows: seq<seq<string>>)
      requires cache == null && !warmupInProgress ==> RowsOk(rows)
      modifies this
      ensures old(cache) != null || old(warmupInProgress) ==>
                cache == old(cache) && warmupInProgress == old(warmupInProgress)
      ensures old(cache) == null && !old(warmupInProgress) ==>
                cache != null && fresh(cache) && cache[..] == ProjectsOf(rows) && !warmupInProgress
    {
      if cache != null {
        return;
      }
      if warmupInProgress {
        return;
      }
      warmupInProgress := true;
      cache := new Project[0];
      var list := rows;
      var filled := new Project[|list|];
      cache := filled;
      for i := 0 to |list|
        invariant cache == filled
        invariant forall j :: 0 <= j < i ==> filled[j] == Project(list[j][0], list[j][1], list[j][2])
      {
        filled[i] := Project(list[i][0], list[i][1], list[i][2]);
      }
      warmupInProgress := false;
    }

    /**
     * GetProjectById, over the cache as it is at the time of the lookup (the
     * warm-up it starts in the background is the separate WarmupCache step).
     */
    method GetProjectById(id: string) returns (p: Option<Project>)
      ensures cache == null ==> p == None
      ensures cache != null ==> p == FindProject(cache[..], id)
    {
      if cache == null {
        return None;
      }
      var i := 0;
      while i < cache.Length
        invariant 0 <= i <= cache.Length
        invariant FindProject(cache[..], id) == FindProject(cache[i..], id)
      {
        assert cache[i..][1..] == cache[i + 1..];
        if cache[i].id == id {
          return Some(cache[i]);
        }
        i := i + 1;
      }
      return None;
    }
  }

  // ---------------------------------------------------------------------------

  /**
   * The lookup finds the first project with the ID, and finds nothing exactly
   * when no project has it.
   */
  lemma {:induction false} FindProjectFirst(projects: seq<Project>, id: string)
    ensures FindProject(projects, id).None? <==> forall i :: 0 <= i < |projects| ==> projects[i].id != id
    ensures FindProject(projects, id).Some? ==>
              exists i :: 0 <= i < |projects| && projects[i] == FindProject(projects, id).value
                          && projects[i].id == id
                          && forall j :: 0 <= j < i ==> projects[j].id != id
  {
    if projects != [] && projects[0].id != id {
      FindProjectFirst(projects[1..], id);
      var rest := projects[1..];
      if FindProject(rest, id).Some? {
        var i :| 0 <= i < |rest| && rest[i] == FindProject(rest, id).value && rest[i].id == id
                 && forall j :: 0 <= j < i ==> rest[j].id != id;
        assert projects[i + 1] == rest[i];
        assert forall j :: 0 < j < i + 1 ==> projects[j] == rest[j - 1];
      }
      assert forall i :: 0 < i < |projects| ==> projects[i] == rest[i - 1];
    }
  }

  /** After a warm-up, the project of a listed ID is the first row with that ID. */
  lemma WarmedLookup(rows: seq<seq<string>>, id: string, k: nat)
    requires RowsOk(rows)
    requires k < |rows| && rows[k][0] == id
    requires forall j :: 0 <= j < k ==> rows[j][0] != id
    ensures FindProject(ProjectsOf(rows), id) == Some(Project(rows[k][0], rows[k][1], rows[k][2]))
  {
    var ps := ProjectsOf(rows);
    FindProjectFirst(ps, id);
    assert ps[k].id == id;
    assert forall j :: 0 <= j < k ==> ps[j].id == rows[j][0];
    var i :| 0 <= i < |ps| && ps[i] == FindProject(ps, id).value && ps[i].id == id
             && forall j :: 0 <= j < i ==> ps[j].id != id;
    assert i == k;
  }
}
