/**
 * internal/gcloud/cli.go: the parsers of gcloud's output (the output is an
 * input string here; running gcloud is not modelled) and the command lines
 * built for it.
 */
module GcloudCli {
  import opened GoStrings

  datatype Cluster = Cluster(name: string, location: string)

  /** The executable every gcloud command line starts with. */
  class Cli {
    var gcloudPath: string

    constructor()
      ensures gcloudPath == "gcloud"
    {
      gcloudPath := "gcloud";
    }

    /** SetGcloudPath: later command lines use `path`. */
    method SetGcloudPath(path: string)
      modifies this
      ensures gcloudPath == path
      ensures GetClusterCredentialsCommand("p", Cluster("c", "z"))[0] == path
    {
      gcloudPath := path;
    }

    /** The command line GetClusterCredentials runs. */
    function GetClusterCredentialsCommand(projectID: string, cluster: Cluster): (cmd: seq<string>)
      reads this
      ensures cmd == [gcloudPath] + GetClusterCredentialsArgs(projectID, cluster)
    {
      [gcloudPath] + GetClusterCredentialsArgs(projectID, cluster)
    }
  }

  /** ProjectsList: the white-space separated fields of the output, in order. */
  function ProjectsList(output: string): (ids: seq<string>)
    ensures forall i :: 0 <= i < |ids| ==> ids[i] != [] && NoSpace(ids[i])
  {
    FieldsAreWords(output);
    Fields(output)
  }

  /** The clusters of the lines with at least two columns, in line order; further columns are ignored. */
  function Clusters(lines: seq<string>): seq<Cluster> {
    if lines == [] then []
    else
      var split := Fields(lines[|lines| - 1]);
      Clusters(lines[..|lines| - 1]) + (if |split| >= 2 then [Cluster(split[0], split[1])] else [])
  }

  /** ContainerClustersList over gcloud's output. */
  method ContainerClustersList(output: string) returns (clusters: seq<Cluster>)
    ensures clusters == Clusters(Split(output, '\n'))
  {
    var lines := Split(output, '\n');
    clusters := [];
    var i := 0;
    while i < |lines|
      invariant 0 <= i <= |lines|
      invariant clusters == Clusters(lines[..i])
    {
      assert lines[..i + 1][..i] == lines[..i];
      var split := Fields(lines[i]);
      if |split| >= 2 {
        clusters := clusters + [Cluster(split[0], split[1])];
      }
      i := i + 1;
    }
    assert lines[..i] == lines;
  }

  /** The argument vector of GetClusterCredentials. */
  function GetClusterCredentialsArgs(projectID: string, cluster: Cluster): (args: seq<string>)
    ensures |args| == 8
    ensures args[..3] == ["container", "clusters", "get-credentials"] && args[3] == cluster.name
    ensures args[4] == "--project" && args[5] == projectID
    ensures args[6] == "--zone" && args[7] == cluster.location
  {
    ["container", "clusters", "get-credentials", cluster.name, "--project", projectID, "--zone", cluster.location]
  }

  /** The argument following the first occurrence of `flag`, "" if there is none. */
  function FlagValue(args: seq<string>, flag: string): string {
    if |args| < 2 then ""
    else if args[0] == flag then args[1]
    else FlagValue(args[1..], flag)
  }

  // ---------------------------------------------------------------------------

  /** Reading the flags back from the argument vector gives the project and the zone. */
  lemma CredentialsFlags(projectID: string, cluster: Cluster)
    requires cluster.name != "--project" && cluster.name != "--zone" && projectID != "--zone"
    ensures FlagValue(GetClusterCredentialsArgs(projectID, cluster), "--project") == projectID
    ensures FlagValue(GetClusterCredentialsArgs(projectID, cluster), "--zone") == cluster.location
  {
    var args := GetClusterCredentialsArgs(projectID, cluster);
    var atProject := ["--project", projectID, "--zone", cluster.location];
    var atZone := ["--zone", cluster.location];
    assert args[4..] == atProject && args[6..] == atZone;
    forall f | f == "--project" || f == "--zone"
      ensures FlagValue(args, f) == FlagValue(atProject, f)
    {
      assert args[1..] == args[1..];
      assert FlagValue(args, f) == FlagValue(args[1..], f);
      assert args[1..][1..] == args[2..];
      assert FlagValue(args[1..], f) == FlagValue(args[2..], f);
      assert args[2..][1..] == args[3..];
      assert FlagValue(args[2..], f) == FlagValue(args[3..], f);
      assert args[3..][1..] == args[4..];
      assert FlagValue(args[3..], f) == FlagValue(args[4..], f);
    }
    assert atProject[1..][1..] == atZone;
    assert FlagValue(atProject, "--zone") == FlagValue(atProject[1..], "--zone");
    assert FlagValue(atProject[1..], "--zone") == FlagValue(atZone, "--zone");
  }

  /** The clusters of a list of lines are those of its parts, in order. */
  lemma {:induction false} ClustersAppend(a: seq<string>, b: seq<string>)
    ensures Clusters(a + b) == Clusters(a) + Clusters(b)
    decreases |b|
  {
    if b == [] {
      assert a + b == a;
    } else {
      var b' := b[..|b| - 1];
      assert (a + b)[..|a + b| - 1] == a + b';
      ClustersAppend(a, b');
    }
  }

  /** A "name<TAB>location" line per cluster, as gcloud prints them. */
  function ClusterLines(clusters: seq<Cluster>): seq<string> {
    seq(|clusters|, i requires 0 <= i < |clusters| => clusters[i].name + "\t" + clusters[i].location)
  }

  predicate Printable(c: Cluster) {
    c.name != [] && NoSpace(c.name) && c.location != [] && NoSpace(c.location)
  }

  lemma ClusterLineFields(c: Cluster)
    requires Printable(c)
    ensures Fields(c.name + "\t" + c.location) == [c.name, c.location]
  {
    assert [c.name, c.location][1..] == [c.location];
    assert Join([c.name, c.location], "\t") + "" == c.name + "\t" + c.location;
    FieldsOfJoin([c.name, c.location], "\t", "");
  }

  /** Clusters printed one per line read back as the same clusters in the same order. */
  lemma {:induction false} ClustersOfLines(clusters: seq<Cluster>)
    requires forall i :: 0 <= i < |clusters| ==> Printable(clusters[i])
    ensures Clusters(ClusterLines(clusters)) == clusters
  {
    if clusters != [] {
      var n := |clusters| - 1;
      var lines := ClusterLines(clusters);
      assert lines[..n] == ClusterLines(clusters[..n]);
      ClustersOfLines(clusters[..n]);
      ClusterLineFields(clusters[n]);
      assert clusters[..n] + [clusters[n]] == clusters;
    }
  }

  /** The trailing empty line after the last cluster is skipped. */
  lemma ClustersIgnoreEmptyLine(lines: seq<string>)
    ensures Clusters(lines + [""]) == Clusters(lines)
  {
    assert (lines + [""])[..|lines|] == lines;
    assert Fields("") == [];
  }

  /** The package test's output: one tab-separated line and a final newline. */
  lemma ClustersOfTestOutput()
    ensures Clusters(Split("production" + "\t" + "europe-west1-d" + "\n", '\n'))
         == [Cluster("production", "europe-west1-d")]
  {
    var line := "production" + "\t" + "europe-west1-d";
    SplitAt(line, '\n', "");
    SplitNoSep("", '\n');
    assert line + "\n" == line + ['\n'] + "";
    ClusterLineFields(Cluster("production", "europe-west1-d"));
    ClustersIgnoreEmptyLine([line]);
    assert [line] == [] + [line];
  }
}
