/**
 * internal/kubectl/cli.go: the parsers of kubectl's output (the output is an
 * input string here; running kubectl is not modelled) and the command lines
 * built for it.
 */
module Kubectl {
  import opened GoStrings
  import opened GoStrconv

  datatype Pod = Pod(name: string, containers: seq<string>, containerPorts: seq<Int>, appLabel: string)

  /** The executable every kubectl command line starts with. */
  class Cli {
    var kubectlPath: string

    constructor()
      ensures kubectlPath == "kubectl"
    {
      kubectlPath := "kubectl";
    }

    /** SetKubectlPath: later command lines use `path`. */
    method SetKubectlPath(path: string)
      modifies this
      ensures kubectlPath == path
      ensures PortForwardCommand("p", 1, 1, "n")[0] == path
    {
      kubectlPath := path;
    }

    /** The command line PortForward runs. */
    function PortForwardCommand(podID: string, localPort: Int, remotePort: Int, namespace: string)
      : (cmd: seq<string>)
      reads this
      ensures cmd == [kubectlPath] + PortForwardArgs(podID, localPort, remotePort, namespace)
    {
      [kubectlPath] + PortForwardArgs(podID, localPort, remotePort, namespace)
    }
  }

  /** NamespacesList: the white-space separated fields of the output, in order. */
  function NamespacesList(output: string): (names: seq<string>)
    ensures forall i :: 0 <= i < |names| ==> names[i] != [] && NoSpace(names[i])
  {
    FieldsAreWords(output);
    Fields(output)
  }

  /** The integer entries of a comma-separated port column, in order; anything else is dropped. */
  function ParsePorts(portsStr: seq<string>): seq<Int> {
    if portsStr == [] then []
    else
      var p := ParsePorts(portsStr[..|portsStr| - 1]);
      var r := Atoi(portsStr[|portsStr| - 1]);
      if r.ok then p + [r.value] else p
  }

  /** The pod of one line whose columns are name, containers, ports and app label. */
  function PodOfTokens(tokens: seq<string>): Pod
    requires |tokens| >= 4
  {
    Pod(tokens[0], Split(tokens[1], ','), ParsePorts(Split(tokens[2], ',')), tokens[3])
  }

  /**
   * A line with three columns or more is used, and the fourth column is read: a
   * line of exactly three columns makes PodsList index out of range.
   */
  predicate PodLinesOk(lines: seq<string>) {
    forall i :: 0 <= i < |lines| ==> |Fields(lines[i])| != 3
  }

  /** The pods of the lines with at least three columns, in line order. */
  function Pods(lines: seq<string>): seq<Pod>
    requires PodLinesOk(lines)
  {
    if lines == [] then []
    else
      var p := lines[..|lines| - 1];
      var tokens := Fields(lines[|lines| - 1]);
      assert PodLinesOk(p) by {
        forall i | 0 <= i < |p| ensures |Fields(p[i])| != 3 {
          assert p[i] == lines[i];
        }
      }
      Pods(p) + (if |tokens| < 3 then [] else [PodOfTokens(tokens)])
  }

  /** PodsList over kubectl's output. */
  method PodsList(output: string) returns (pods: seq<Pod>)
    requires PodLinesOk(Split(output, '\n'))
    ensures pods == Pods(Split(output, '\n'))
  {
    var lines := Split(output, '\n');
    pods := [];
    var i := 0;
    while i < |lines|
      invariant 0 <= i <= |lines|
      invariant PodLinesOk(lines[..i])
      invariant pods == Pods(lines[..i])
    {
      assert lines[..i + 1][..i] == lines[..i];
      var tokens := Fields(lines[i]);
      if |tokens| < 3 {
        i := i + 1;
        continue;
      }
      assert |tokens| != 3;
      var containers := Split(tokens[1], ',');
      var portsStr := Split(tokens[2], ',');
      var ports: seq<Int> := [];
      var k := 0;
      while k < |portsStr|
        invariant 0 <= k <= |portsStr|
        invariant ports == ParsePorts(portsStr[..k])
      {
        assert portsStr[..k + 1][..k] == portsStr[..k];
        var r := Atoi(portsStr[k]);
        if r.ok {
          ports := ports + [r.value];
        }
        k := k + 1;
      }
      assert portsStr[..k] == portsStr;
      pods := pods + [Pod(tokens[0], containers, ports, tokens[3])];
      i := i + 1;
    }
    assert lines[..i] == lines;
  }

  /** The argument vector of PortForward: local port bound on every address. */
  function PortForwardArgs(podID: string, localPort: Int, remotePort: Int, namespace: string)
    : (args: seq<string>)
    ensures |args| == 7 && args[0] == "port-forward" && args[1] == podID
    ensures args[3] == "--namespace" && args[4] == namespace
    ensures args[5] == "--address" && args[6] == "0.0.0.0"
    ensures var ports := Split(args[2], ':');
            |ports| == 2 && Atoi(ports[0]) == IntResult(localPort, true)
            && Atoi(ports[1]) == IntResult(remotePort, true)
  {
    PortsSplit(localPort, remotePort);
    ["port-forward", podID, Itoa(localPort) + ":" + Itoa(remotePort),
     "--namespace", namespace, "--address", "0.0.0.0"]
  }

  // ---------------------------------------------------------------------------

  lemma JoinCons(x: string, rest: seq<string>, sep: string)
    requires rest != []
    ensures Join([x] + rest, sep) == x + sep + Join(rest, sep)
  {
    assert ([x] + rest)[1..] == rest;
  }

  lemma ItoaHasNo(n: Int, c: char)
    requires c != '-' && !IsDigit(c)
    ensures c !in Itoa(n)
  {
    ItoaIsPlain(n);
  }

  /** "L:R" splits back into the two ports, each read back by Atoi. */
  lemma PortsSplit(localPort: Int, remotePort: Int)
    ensures var ports := Split(Itoa(localPort) + ":" + Itoa(remotePort), ':');
            |ports| == 2 && Atoi(ports[0]) == IntResult(localPort, true)
            && Atoi(ports[1]) == IntResult(remotePort, true)
  {
    ItoaHasNo(localPort, ':');
    ItoaHasNo(remotePort, ':');
    SplitAt(Itoa(localPort), ':', Itoa(remotePort));
    SplitNoSep(Itoa(remotePort), ':');
    AtoiOfItoa(localPort);
    AtoiOfItoa(remotePort);
  }

  /** Namespaces printed one per line, each non-empty and space-free, are read back in order. */
  lemma NamespacesOfLines(names: seq<string>)
    requires forall i :: 0 <= i < |names| ==> names[i] != [] && NoSpace(names[i])
    ensures NamespacesList(Join(names, "\n") + "\n") == names
  {
    assert AllSpace("\n") by { assert IsSpace('\n'); }
    FieldsOfJoin(names, "\n", "\n");
  }

  /** The namespaces of the test's kubectl output are its three lines. */
  lemma NamespacesOfTestOutput()
    ensures NamespacesList("acme-sro-development" + "\n" + "default" + "\n" + "infrastructure-development" + "\n")
         == ["acme-sro-development", "default", "infrastructure-development"]
  {
    var a, b, c := "acme-sro-development", "default", "infrastructure-development";
    assert NoSpace(a) by { LowerWord(a); }
    assert NoSpace(b) by { LowerWord(b); }
    assert NoSpace(c) by { LowerWord(c); }
    var names := [a, b, c];
    assert names == [a] + [b, c];
    assert [b, c] == [b] + [c];
    JoinCons(b, [c], "\n");
    JoinCons(a, [b, c], "\n");
    assert Join([c], "\n") == c;
    assert Join(names, "\n") + "\n" == a + "\n" + b + "\n" + c + "\n";
    NamespacesOfLines(names);
  }

  /** Lower-case letters and dashes are not white space. */
  lemma LowerWord(w: string)
    requires forall i :: 0 <= i < |w| ==> 'a' <= w[i] <= 'z' || w[i] == '-'
    ensures NoSpace(w)
  {
  }

  /** A port column of "<none>" gives no ports (the package test expects [0]). */
  lemma NoPorts()
    ensures ParsePorts(Split("<none>", ',')) == []
  {
    SplitNoSep("<none>", ',');
    assert ParsePorts(["<none>"]) == ParsePorts([]) + (if Atoi("<none>").ok then [Atoi("<none>").value] else []);
  }

  /** The comma-separated decimal form of `ports`. */
  function PortsColumn(ports: seq<Int>): string {
    Join(PortStrings(ports), ",")
  }

  /** Each port in decimal. */
  function PortStrings(ports: seq<Int>): (r: seq<string>)
    ensures |r| == |ports|
    ensures forall i :: 0 <= i < |ports| ==> r[i] == Itoa(ports[i])
  {
    if ports == [] then []
    else PortStrings(ports[..|ports| - 1]) + [Itoa(ports[|ports| - 1])]
  }

  /** Ports written as kubectl lists them are read back in order. */
  lemma {:induction false} ParsePortsOfColumn(ports: seq<Int>)
    requires ports != []
    ensures ParsePorts(Split(PortsColumn(ports), ',')) == ports
  {
    var strs := PortStrings(ports);
    forall i | 0 <= i < |strs| ensures ',' !in strs[i] {
      ItoaHasNo(ports[i], ',');
    }
    SplitOfJoin(strs, ',');
    ParsePortsOfItoa(ports);
  }

  lemma {:induction false} ParsePortsOfItoa(ports: seq<Int>)
    ensures ParsePorts(PortStrings(ports)) == ports
  {
    if ports != [] {
      var n := |ports| - 1;
      var strs := PortStrings(ports);
      ParsePortsOfItoa(ports[..n]);
      assert strs[..n] == PortStrings(ports[..n]);
      AtoiOfItoa(ports[n]);
      assert ports[..n] + [ports[n]] == ports;
    }
  }

  lemma {:induction false} JoinNoSpace(parts: seq<string>, sep: string)
    requires forall i :: 0 <= i < |parts| ==> NoSpace(parts[i])
    requires NoSpace(sep)
    ensures NoSpace(Join(parts, sep))
    ensures parts != [] ==> |Join(parts, sep)| >= |parts[0]|
  {
    if |parts| > 1 {
      JoinNoSpace(parts[1..], sep);
    }
  }

  /**
   * A line written as kubectl prints a pod's columns (name, containers, ports,
   * app label) reads back as that pod.
   */
  lemma PodLineRoundTrip(pod: Pod)
    requires pod.name != [] && NoSpace(pod.name)
    requires pod.appLabel != [] && NoSpace(pod.appLabel)
    requires pod.containers != [] && pod.containerPorts != []
    requires forall i :: 0 <= i < |pod.containers| ==>
               pod.containers[i] != [] && NoSpace(pod.containers[i]) && ',' !in pod.containers[i]
    ensures var columns := [pod.name, Join(pod.containers, ","), PortsColumn(pod.containerPorts), pod.appLabel];
            var line := Join(columns, " ");
            |Fields(line)| == 4 && PodOfTokens(Fields(line)) == pod
  {
    var cs := Join(pod.containers, ",");
    var ps := PortsColumn(pod.containerPorts);
    ContainersColumn(pod.containers);
    PortsColumnIsWord(pod.containerPorts);
    var columns := [pod.name, cs, ps, pod.appLabel];
    FieldsOfJoin(columns, " ", "");
    assert Join(columns, " ") + "" == Join(columns, " ");
    ParsePortsOfColumn(pod.containerPorts);
  }

  lemma ContainersColumn(containers: seq<string>)
    requires containers != []
    requires forall i :: 0 <= i < |containers| ==>
               containers[i] != [] && NoSpace(containers[i]) && ',' !in containers[i]
    ensures Join(containers, ",") != [] && NoSpace(Join(containers, ","))
    ensures Split(Join(containers, ","), ',') == containers
  {
    JoinNoSpace(containers, ",");
    SplitOfJoin(containers, ',');
  }

  lemma PortsColumnIsWord(ports: seq<Int>)
    requires ports != []
    ensures PortsColumn(ports) != [] && NoSpace(PortsColumn(ports))
  {
    var strs := PortStrings(ports);
    forall i | 0 <= i < |strs| ensures NoSpace(strs[i]) {
      ItoaIsPlain(ports[i]);
    }
    JoinNoSpace(strs, ",");
    ItoaIsPlain(ports[0]);
    assert strs[0] == Itoa(ports[0]);
  }

  /** A line with exactly three columns, as in the package test's output, breaks PodsList's precondition. */
  lemma ThreeColumnLine(name: string, containers: string, ports: string)
    requires name != [] && NoSpace(name) && containers != [] && NoSpace(containers)
    requires ports != [] && NoSpace(ports)
    ensures !PodLinesOk([name + " " + containers + " " + ports])
  {
    var columns := [name, containers, ports];
    JoinCons(containers, [ports], " ");
    JoinCons(name, [containers, ports], " ");
    assert Join(columns, " ") + "" == name + " " + containers + " " + ports;
    FieldsOfJoin(columns, " ", "");
    var line := name + " " + containers + " " + ports;
    assert [line][0] == line;
  }
}
