/**
 * internal/history/history.go: the records goproxie stores in its command
 * history (non-interactive argument strings) and the parser that reads them
 * back. The configuration file is the `FsConfig.Config` value passed in and out.
 */
module History {
  import opened Wrappers
  import opened GoStrings
  import opened GoStrconv
  import FsConfig
  import GcloudCli
  import Kubectl
  import CloudSql

  /** The configuration key of the stored commands. */
  const KeyCommands: string := "history.commands"

  /** One `-flag=value` argument as `%v` formats it. */
  function Token(flag: string, value: string): string {
    flag + "=" + value
  }

  /** The arguments of a pod proxy record; the remote port and the pod's name are not part of it. */
  function PodRecordTokens(projectID: string, cluster: GcloudCli.Cluster, namespace: string,
                           pod: Kubectl.Pod, localPort: Int): seq<string> {
    [Token("-project", projectID), Token("-cluster", cluster.name), Token("-namespace", namespace),
     Token("-pod", pod.appLabel), Token("-local_port", Itoa(localPort)), Token("-proxy_type", "pod")]
  }

  function PodRecord(projectID: string, cluster: GcloudCli.Cluster, namespace: string,
                     pod: Kubectl.Pod, localPort: Int): string {
    Join(PodRecordTokens(projectID, cluster, namespace, pod, localPort), " ")
  }

  /** The arguments of a Cloud SQL proxy record. */
  function CloudSqlRecordTokens(projectID: string, instance: CloudSql.CloudSqlInstance, localPort: Int): seq<string> {
    [Token("-project", projectID), Token("-sql_instance", instance.connectionName),
     Token("-local_port", Itoa(localPort)), Token("-proxy_type", "sql")]
  }

  function CloudSqlRecord(projectID: string, instance: CloudSql.CloudSqlInstance, localPort: Int): string {
    Join(CloudSqlRecordTokens(projectID, instance, localPort), " ")
  }

  /**
   * StorePodProxy: the pod record appended to the history (remotePort is
   * unused). The history is deduplicated but, as FsConfig.HistoryExceedsCap
   * shows, not capped.
   */
  method StorePodProxy(c: FsConfig.Config, projectID: string, cluster: GcloudCli.Cluster, namespace: string,
                       pod: Kubectl.Pod, localPort: Int, remotePort: Int) returns (c': FsConfig.Config)
    ensures c'.history.commands
         == FsConfig.Dedup(c.history.commands + [PodRecord(projectID, cluster, namespace, pod, localPort)])
    ensures PodRecord(projectID, cluster, namespace, pod, localPort) in c'.history.commands
    ensures forall s :: s in c'.history.commands <==>
              s in c.history.commands || s == PodRecord(projectID, cluster, namespace, pod, localPort)
  {
    var record := PodRecord(projectID, cluster, namespace, pod, localPort);
    c' := FsConfig.AppendHistoryCommand(c, record);
    FsConfig.DedupSameStrings(c.history.commands + [record]);
  }

  /** StoreCloudSQLProxy: the Cloud SQL record appended to the history, deduplicated but not capped. */
  method StoreCloudSqlProxy(c: FsConfig.Config, projectID: string, instance: CloudSql.CloudSqlInstance,
                            localPort: Int) returns (c': FsConfig.Config)
    ensures c'.history.commands
         == FsConfig.Dedup(c.history.commands + [CloudSqlRecord(projectID, instance, localPort)])
    ensures CloudSqlRecord(projectID, instance, localPort) in c'.history.commands
    ensures forall s :: s in c'.history.commands <==>
              s in c.history.commands || s == CloudSqlRecord(projectID, instance, localPort)
  {
    var record := CloudSqlRecord(projectID, instance, localPort);
    c' := FsConfig.AppendHistoryCommand(c, record);
    FsConfig.DedupSameStrings(c.history.commands + [record]);
  }

  datatype Item = Item(
    id: string, projectID: string, cluster: string, sqlInstance: string,
    localPort: Int, remotePort: Int, proxyType: string, pod: string, namespace: string,
    raw: string)

  /** Item{}: every field at its zero value. */
  const ZeroItem: Item := Item("", "", "", "", 0, 0, "", "", "", "")

  /**
   * ParseRaw indexes the second piece of every token split on '=', so every
   * white-space separated token must contain '='.
   */
  predicate WellFormed(raw: string) {
    forall i :: 0 <= i < |Fields(raw)| ==> '=' in Fields(raw)[i]
  }

  /** The flag of a token: what precedes its first '='. */
  function FlagOf(token: string): string
    requires '=' in token
  {
    SplitHasSep(token, '=');
    Split(token, '=')[0]
  }

  /** The value of a token: what lies between its first and its second '=' (or its end). */
  function ValueOf(token: string): string
    requires '=' in token
  {
    SplitHasSep(token, '=');
    Split(token, '=')[1]
  }

  /** The switch of ParseRaw: a known flag sets its field, the ports through Atoi; other flags are ignored. */
  function SetFlag(item: Item, flag: string, value: string): Item {
    if flag == "-project" then item.(projectID := value)
    else if flag == "-sql_instance" then item.(sqlInstance := value)
    else if flag == "-proxy_type" then item.(proxyType := value)
    else if flag == "-local_port" then item.(localPort := Atoi(value).value)
    else if flag == "-remote_port" then item.(remotePort := Atoi(value).value)
    else if flag == "-pod" then item.(pod := value)
    else if flag == "-namespace" then item.(namespace := value)
    else if flag == "-cluster" then item.(cluster := value)
    else item
  }

  function ApplyToken(item: Item, token: string): Item
    requires '=' in token
  {
    SetFlag(item, FlagOf(token), ValueOf(token))
  }

  /** The tokens applied in order; the ID and the raw string are never touched. */
  function ApplyTokens(item: Item, tokens: seq<string>): (r: Item)
    requires forall i :: 0 <= i < |tokens| ==> '=' in tokens[i]
    ensures r.id == item.id && r.raw == item.raw
  {
    if tokens == [] then item
    else ApplyToken(ApplyTokens(item, tokens[..|tokens| - 1]), tokens[|tokens| - 1])
  }

  /** What ParseRaw returns: ID is `raw` without its ASCII spaces, Raw is `raw`. */
  function Parse(raw: string): (r: Item)
    requires WellFormed(raw)
    ensures r.id == RemoveSpaces(raw) && ' ' !in r.id && r.raw == raw
  {
    ApplyTokens(ZeroItem.(id := RemoveSpaces(raw), raw := raw), Fields(raw))
  }

  /** ParseRaw, token by token. */
  method ParseRaw(raw: string) returns (item: Item)
    requires WellFormed(raw)
    ensures item == Parse(raw)
  {
    var argsTokens := Fields(raw);
    item := ZeroItem;
    item := item.(id := RemoveSpaces(raw));
    item := item.(raw := raw);
    ghost var start := item;
    var i := 0;
    while i < |argsTokens|
      invariant 0 <= i <= |argsTokens|
      invariant item == ApplyTokens(start, argsTokens[..i])
    {
      var token := argsTokens[i];
      assert argsTokens[..i + 1][..i] == argsTokens[..i];
      SplitHasSep(token, '=');
      var argTokens := Split(token, '=');
      var flag := argTokens[0];
      var value := argTokens[1];
      if flag == "-project" {
        item := item.(projectID := value);
      } else if flag == "-sql_instance" {
        item := item.(sqlInstance := value);
      } else if flag == "-proxy_type" {
        item := item.(proxyType := value);
      } else if flag == "-local_port" {
        item := item.(localPort := Atoi(value).value);
      } else if flag == "-remote_port" {
        item := item.(remotePort := Atoi(value).value);
      } else if flag == "-pod" {
        item := item.(pod := value);
      } else if flag == "-namespace" {
        item := item.(namespace := value);
      } else if flag == "-cluster" {
        item := item.(cluster := value);
      }
      i := i + 1;
    }
    assert argsTokens[..i] == argsTokens;
  }

  /** List: one parsed item per stored command, in order. */
  method List(c: FsConfig.Config) returns (items: seq<Item>)
    requires forall i :: 0 <= i < |c.history.commands| ==> WellFormed(c.history.commands[i])
    ensures |items| == |c.history.commands|
    ensures forall i :: 0 <= i < |items| ==> items[i] == Parse(c.history.commands[i])
  {
    var stringCommands := c.history.commands;
    items := [];
    for i := 0 to |stringCommands|
      invariant |items| == i
      invariant forall j :: 0 <= j < i ==> items[j] == Parse(stringCommands[j])
    {
      var item := ParseRaw(stringCommands[i]);
      items := items + [item];
    }
  }

  // ---------------------------------------------------------------------------
  // Tokens

  /** A value that survives a record: no white space and no '='. */
  predicate Plain(s: string) {
    NoSpace(s) && '=' !in s
  }

  lemma TokenSplit(flag: string, value: string)
    requires '=' !in flag && '=' !in value
    ensures Split(Token(flag, value), '=') == [flag, value]
  {
    assert Token(flag, value) == flag + ['='] + value;
    SplitAt(flag, '=', value);
    SplitNoSep(value, '=');
  }

  /** A '=' inside a value cuts it: only the part before it is read. */
  lemma ValueStopsAtEquals(flag: string, value: string, more: string)
    requires '=' !in flag && '=' !in value
    ensures FlagOf(Token(flag, value + "=" + more)) == flag
    ensures ValueOf(Token(flag, value + "=" + more)) == value
  {
    assert Token(flag, value + "=" + more) == flag + ['='] + (value + ['='] + more);
    SplitAt(flag, '=', value + ['='] + more);
    SplitAt(value, '=', more);
  }

  lemma ApplyFlagToken(item: Item, flag: string, value: string)
    requires '=' !in flag && '=' !in value
    ensures '=' in Token(flag, value)
    ensures ApplyToken(item, Token(flag, value)) == SetFlag(item, flag, value)
  {
    assert Token(flag, value)[|flag|] == '=';
    TokenSplit(flag, value);
  }

  lemma TokenIsWord(flag: string, value: string)
    requires flag != [] && Plain(flag) && NoSpace(value)
    ensures Token(flag, value) != [] && NoSpace(Token(flag, value)) && '=' in Token(flag, value)
  {
    var t := Token(flag, value);
    assert t[|flag|] == '=';
    assert forall i :: 0 <= i < |t| ==> t[i] == (if i < |flag| then flag[i] else if i == |flag| then '=' else value[i - |flag| - 1]);
  }

  lemma ItoaPlain(n: Int)
    ensures Plain(Itoa(n))
  {
    ItoaIsPlain(n);
  }

  lemma {:induction false} ApplyTokensSnoc(item: Item, tokens: seq<string>, t: string)
    requires forall i :: 0 <= i < |tokens| ==> '=' in tokens[i]
    requires '=' in t
    ensures ApplyTokens(item, tokens + [t]) == ApplyToken(ApplyTokens(item, tokens), t)
  {
    assert (tokens + [t])[..|tokens|] == tokens;
  }

  // ---------------------------------------------------------------------------
  // Properties of ParseRaw

  /**
   * The last token naming a flag, if any: its value. Every token is expected to
   * contain '='.
   */
  function LastValue(tokens: seq<string>, flag: string): Option<string>
    requires forall i :: 0 <= i < |tokens| ==> '=' in tokens[i]
  {
    if tokens == [] then None
    else
      var t := tokens[|tokens| - 1];
      if FlagOf(t) == flag then Some(ValueOf(t)) else LastValue(tokens[..|tokens| - 1], flag)
  }

  /** The flags whose value is stored as text. */
  predicate TextFlag(flag: string) {
    flag == "-project" || flag == "-sql_instance" || flag == "-proxy_type"
    || flag == "-pod" || flag == "-namespace" || flag == "-cluster"
  }

  /** The field a text flag sets. */
  function TextField(item: Item, flag: string): string
    requires TextFlag(flag)
  {
    if flag == "-project" then item.projectID
    else if flag == "-sql_instance" then item.sqlInstance
    else if flag == "-proxy_type" then item.proxyType
    else if flag == "-pod" then item.pod
    else if flag == "-namespace" then item.namespace
    else item.cluster
  }

  /** The field a port flag sets. */
  function PortField(item: Item, flag: string): Int
    requires flag == "-local_port" || flag == "-remote_port"
  {
    if flag == "-local_port" then item.localPort else item.remotePort
  }

  lemma SetFlagFields(item: Item, f: string, v: string, flag: string)
    ensures TextFlag(flag) ==>
              TextField(SetFlag(item, f, v), flag) == if f == flag then v else TextField(item, flag)
    ensures flag == "-local_port" || flag == "-remote_port" ==>
              PortField(SetFlag(item, f, v), flag) == if f == flag then Atoi(v).value else PortField(item, flag)
  {
  }

  /**
   * A repeated text flag keeps its last value, and a missing one leaves the
   * field as it was.
   */
  lemma {:induction false} LastValueWins(item: Item, tokens: seq<string>, flag: string)
    requires forall i :: 0 <= i < |tokens| ==> '=' in tokens[i]
    requires TextFlag(flag)
    ensures TextField(ApplyTokens(item, tokens), flag) == LastValue(tokens, flag).GetOr(TextField(item, flag))
  {
    if tokens != [] {
      var t := tokens[|tokens| - 1];
      LastValueWins(item, tokens[..|tokens| - 1], flag);
      SetFlagFields(ApplyTokens(item, tokens[..|tokens| - 1]), FlagOf(t), ValueOf(t), flag);
    }
  }

  /**
   * A repeated port flag keeps its last value, read with Atoi (0 when it is not
   * a number), and a missing one leaves the port as it was.
   */
  lemma {:induction false} LastPortWins(item: Item, tokens: seq<string>, flag: string)
    requires forall i :: 0 <= i < |tokens| ==> '=' in tokens[i]
    requires flag == "-local_port" || flag == "-remote_port"
    ensures PortField(ApplyTokens(item, tokens), flag)
         == match LastValue(tokens, flag) case Some(v) => Atoi(v).value case None => PortField(item, flag)
  {
    if tokens != [] {
      var t := tokens[|tokens| - 1];
      LastPortWins(item, tokens[..|tokens| - 1], flag);
      SetFlagFields(ApplyTokens(item, tokens[..|tokens| - 1]), FlagOf(t), ValueOf(t), flag);
    }
  }

  /**
   * A port that is not a number (see GoStrconv.AtoiSyntaxError: no digits after
   * the sign, or a non-digit among them) is read as 0.
   */
  lemma NonNumericPort(item: Item, flag: string, value: string, k: nat)
    requires flag == "-local_port" || flag == "-remote_port"
    requires '=' !in value
    requires var body := Unsigned(value);
             body == [] || (k < |body| && !IsDigit(body[k]) && AllDigits(body[..k])
                            && DigitsValue(0, body[..k]) <= MaxUint64)
    ensures flag == "-local_port" ==> ApplyToken(item, Token(flag, value)).localPort == 0
    ensures flag == "-remote_port" ==> ApplyToken(item, Token(flag, value)).remotePort == 0
  {
    ApplyFlagToken(item, flag, value);
    AtoiSyntaxError(value, k);
  }

  /** A record of plain values is well formed, and its arguments are read back one by one. */
  lemma RecordFields(tokens: seq<string>)
    requires forall i :: 0 <= i < |tokens| ==> tokens[i] != [] && NoSpace(tokens[i]) && '=' in tokens[i]
    ensures Fields(Join(tokens, " ")) == tokens
    ensures WellFormed(Join(tokens, " "))
  {
    assert Join(tokens, " ") + "" == Join(tokens, " ");
    FieldsOfJoin(tokens, " ", "");
  }

  /** Every argument of a record is a non-empty word containing '='. */
  predicate RecordTokens(tokens: seq<string>) {
    forall i :: 0 <= i < |tokens| ==> Word(tokens[i])
  }

  /** A word: non-empty, without spaces, with a '='. */
  predicate Word(t: string) {
    t != [] && NoSpace(t) && '=' in t
  }

  /** Parsing a record of such arguments applies them in order; its ID runs them together. */
  lemma ParseRecord(tokens: seq<string>)
    requires RecordTokens(tokens)
    ensures WellFormed(Join(tokens, " "))
    ensures Parse(Join(tokens, " "))
         == ApplyTokens(ZeroItem.(id := Concat(tokens), raw := Join(tokens, " ")), tokens)
  {
    RecordFields(tokens);
    forall i | 0 <= i < |tokens|
      ensures ' ' !in tokens[i]
    {
      assert IsSpace(' ');
    }
    RemoveSpacesOfJoin(tokens);
  }

  lemma RecordOfWords(tokens: seq<string>)
    requires forall t :: t in tokens ==> Word(t)
    ensures RecordTokens(tokens)
  {
    forall i | 0 <= i < |tokens|
      ensures Word(tokens[i])
    {
      assert tokens[i] in tokens;
    }
  }

  /** A flag and a plain value make a word. */
  lemma FlagToken(flag: string, value: string)
    requires flag in ["-project", "-sql_instance", "-cluster", "-namespace", "-pod", "-local_port", "-proxy_type"]
    requires Plain(value)
    ensures Word(Token(flag, value))
  {
    assert flag != [] && Plain(flag) by {
      assert IsSpace(flag[0]) == false;
      assert flag != [] && '=' !in flag && NoSpace(flag);
    }
    TokenIsWord(flag, value);
  }

  lemma CloudSqlTokens(projectID: string, instance: CloudSql.CloudSqlInstance, localPort: Int)
    requires Plain(projectID) && Plain(instance.connectionName)
    ensures RecordTokens(CloudSqlRecordTokens(projectID, instance, localPort))
  {
    ItoaPlain(localPort);
    FlagToken("-project", projectID);
    FlagToken("-sql_instance", instance.connectionName);
    FlagToken("-local_port", Itoa(localPort));
    FlagToken("-proxy_type", "sql");
    RecordOfWords(CloudSqlRecordTokens(projectID, instance, localPort));
  }

  /** One argument of a record applied: each known flag sets its own field. */
  lemma ApplyProject(item: Item, v: string)
    requires '=' !in v
    ensures '=' in Token("-project", v) && ApplyToken(item, Token("-project", v)) == item.(projectID := v)
  {
    ApplyFlagToken(item, "-project", v);
  }

  lemma ApplySqlInstance(item: Item, v: string)
    requires '=' !in v
    ensures '=' in Token("-sql_instance", v) && ApplyToken(item, Token("-sql_instance", v)) == item.(sqlInstance := v)
  {
    ApplyFlagToken(item, "-sql_instance", v);
  }

  lemma ApplyCluster(item: Item, v: string)
    requires '=' !in v
    ensures '=' in Token("-cluster", v) && ApplyToken(item, Token("-cluster", v)) == item.(cluster := v)
  {
    ApplyFlagToken(item, "-cluster", v);
  }

  lemma ApplyNamespace(item: Item, v: string)
    requires '=' !in v
    ensures '=' in Token("-namespace", v) && ApplyToken(item, Token("-namespace", v)) == item.(namespace := v)
  {
    ApplyFlagToken(item, "-namespace", v);
  }

  lemma ApplyPod(item: Item, v: string)
    requires '=' !in v
    ensures '=' in Token("-pod", v) && ApplyToken(item, Token("-pod", v)) == item.(pod := v)
  {
    ApplyFlagToken(item, "-pod", v);
  }

  lemma ApplyProxyType(item: Item, v: string)
    requires '=' !in v
    ensures '=' in Token("-proxy_type", v) && ApplyToken(item, Token("-proxy_type", v)) == item.(proxyType := v)
  {
    ApplyFlagToken(item, "-proxy_type", v);
  }

  lemma ApplyLocalPort(item: Item, n: Int)
    ensures '=' in Token("-local_port", Itoa(n))
    ensures ApplyToken(item, Token("-local_port", Itoa(n))) == item.(localPort := n)
  {
    ItoaPlain(n);
    ApplyFlagToken(item, "-local_port", Itoa(n));
    AtoiOfItoa(n);
  }

  /** The arguments of a Cloud SQL record set the project, the instance, the port and the type. */
  lemma CloudSqlTokensApplied(start: Item, projectID: string, instance: CloudSql.CloudSqlInstance, localPort: Int)
    requires Plain(projectID) && Plain(instance.connectionName)
    requires RecordTokens(CloudSqlRecordTokens(projectID, instance, localPort))
    ensures ApplyTokens(start, CloudSqlRecordTokens(projectID, instance, localPort))
         == start.(projectID := projectID, sqlInstance := instance.connectionName,
                   localPort := localPort, proxyType := "sql")
  {
    var i1 := start.(projectID := projectID);
    var i2 := i1.(sqlInstance := instance.connectionName);
    var i3 := i2.(localPort := localPort);
    ApplyProject(start, projectID);
    ApplySqlInstance(i1, instance.connectionName);
    ApplyLocalPort(i2, localPort);
    ApplyProxyType(i3, "sql");
    ApplyFour(start, Token("-project", projectID), Token("-sql_instance", instance.connectionName),
              Token("-local_port", Itoa(localPort)), Token("-proxy_type", "sql"));
  }

  lemma ApplyFour(item: Item, t0: string, t1: string, t2: string, t3: string)
    requires '=' in t0 && '=' in t1 && '=' in t2 && '=' in t3
    ensures ApplyTokens(item, [t0, t1, t2, t3])
         == ApplyToken(ApplyToken(ApplyToken(ApplyToken(item, t0), t1), t2), t3)
  {
    ApplyTokensSnoc(item, [], t0);
    ApplyTokensSnoc(item, [t0], t1);
    ApplyTokensSnoc(item, [t0, t1], t2);
    ApplyTokensSnoc(item, [t0, t1, t2], t3);
    assert [] + [t0] == [t0];
    assert [t0] + [t1] == [t0, t1];
    assert [t0, t1] + [t2] == [t0, t1, t2];
    assert [t0, t1, t2] + [t3] == [t0, t1, t2, t3];
  }

  /**
   * Round trip of a Cloud SQL record: parsing it gives back the project, the
   * connection name and the local port with proxy type "sql"; the ID is the
   * record's arguments run together.
   */
  lemma CloudSqlRoundTrip(projectID: string, instance: CloudSql.CloudSqlInstance, localPort: Int)
    requires Plain(projectID) && Plain(instance.connectionName)
    ensures WellFormed(CloudSqlRecord(projectID, instance, localPort))
    ensures Parse(CloudSqlRecord(projectID, instance, localPort))
         == Item(Concat(CloudSqlRecordTokens(projectID, instance, localPort)),
                 projectID, "", instance.connectionName, localPort, 0, "sql", "", "",
                 CloudSqlRecord(projectID, instance, localPort))
  {
    var tokens := CloudSqlRecordTokens(projectID, instance, localPort);
    CloudSqlTokens(projectID, instance, localPort);
    ParseRecord(tokens);
    CloudSqlTokensApplied(ZeroItem.(id := Concat(tokens), raw := Join(tokens, " ")), projectID, instance, localPort);
  }

  lemma PodTokens(projectID: string, cluster: GcloudCli.Cluster, namespace: string,
                  pod: Kubectl.Pod, localPort: Int)
    requires Plain(projectID) && Plain(cluster.name) && Plain(namespace) && Plain(pod.appLabel)
    ensures RecordTokens(PodRecordTokens(projectID, cluster, namespace, pod, localPort))
  {
    ItoaPlain(localPort);
    FlagToken("-project", projectID);
    FlagToken("-cluster", cluster.name);
    FlagToken("-namespace", namespace);
    FlagToken("-pod", pod.appLabel);
    FlagToken("-local_port", Itoa(localPort));
    FlagToken("-proxy_type", "pod");
    RecordOfWords(PodRecordTokens(projectID, cluster, namespace, pod, localPort));
  }

  /** The first four arguments of a pod record set the project, the cluster, the namespace and the pod. */
  lemma PodHeadApplied(start: Item, projectID: string, clusterName: string, namespace: string, appLabel: string)
    requires Plain(projectID) && Plain(clusterName) && Plain(namespace) && Plain(appLabel)
    ensures '=' in Token("-project", projectID) && '=' in Token("-cluster", clusterName)
    ensures '=' in Token("-namespace", namespace) && '=' in Token("-pod", appLabel)
    ensures ApplyTokens(start, [Token("-project", projectID), Token("-cluster", clusterName),
                                Token("-namespace", namespace), Token("-pod", appLabel)])
         == start.(projectID := projectID, cluster := clusterName, namespace := namespace, pod := appLabel)
  {
    var i1 := start.(projectID := projectID);
    var i2 := i1.(cluster := clusterName);
    var i3 := i2.(namespace := namespace);
    ApplyProject(start, projectID);
    ApplyCluster(i1, clusterName);
    ApplyNamespace(i2, namespace);
    ApplyPod(i3, appLabel);
    ApplyFour(start, Token("-project", projectID), Token("-cluster", clusterName),
              Token("-namespace", namespace), Token("-pod", appLabel));
  }

  /** The arguments of a pod record set the project, the cluster, the namespace, the pod, the port and the type. */
  lemma PodTokensApplied(start: Item, projectID: string, cluster: GcloudCli.Cluster, namespace: string,
                         pod: Kubectl.Pod, localPort: Int)
    requires Plain(projectID) && Plain(cluster.name) && Plain(namespace) && Plain(pod.appLabel)
    ensures ApplyTokens(start, PodRecordTokens(projectID, cluster, namespace, pod, localPort))
         == start.(projectID := projectID, cluster := cluster.name, namespace := namespace,
                   pod := pod.appLabel, localPort := localPort, proxyType := "pod")
  {
    PodHeadApplied(start, projectID, cluster.name, namespace, pod.appLabel);
    var i4 := start.(projectID := projectID, cluster := cluster.name, namespace := namespace, pod := pod.appLabel);
    var i5 := i4.(localPort := localPort);
    ApplyLocalPort(i4, localPort);
    ApplyProxyType(i5, "pod");
    ApplySix(start, Token("-project", projectID), Token("-cluster", cluster.name), Token("-namespace", namespace),
             Token("-pod", pod.appLabel), Token("-local_port", Itoa(localPort)), Token("-proxy_type", "pod"));
  }

  lemma ApplySix(item: Item, t0: string, t1: string, t2: string, t3: string, t4: string, t5: string)
    requires '=' in t0 && '=' in t1 && '=' in t2 && '=' in t3 && '=' in t4 && '=' in t5
    ensures ApplyTokens(item, [t0, t1, t2, t3, t4, t5])
         == ApplyToken(ApplyToken(ApplyTokens(item, [t0, t1, t2, t3]), t4), t5)
  {
    ApplyTokensSnoc(item, [t0, t1, t2, t3], t4);
    ApplyTokensSnoc(item, [t0, t1, t2, t3, t4], t5);
    assert [t0, t1, t2, t3] + [t4] == [t0, t1, t2, t3, t4];
    assert [t0, t1, t2, t3, t4] + [t5] == [t0, t1, t2, t3, t4, t5];
  }

  /**
   * A pod record parses to the project, the cluster's name, the namespace, the
   * pod's app label as `pod` and the local port with proxy type "pod"; the
   * remote port reads as 0 whatever was proxied.
   */
  lemma PodRoundTrip(projectID: string, cluster: GcloudCli.Cluster, namespace: string,
                     pod: Kubectl.Pod, localPort: Int)
    requires Plain(projectID) && Plain(cluster.name) && Plain(namespace) && Plain(pod.appLabel)
    ensures WellFormed(PodRecord(projectID, cluster, namespace, pod, localPort))
    ensures Parse(PodRecord(projectID, cluster, namespace, pod, localPort))
         == Item(Concat(PodRecordTokens(projectID, cluster, namespace, pod, localPort)),
                 projectID, cluster.name, "", localPort, 0, "pod", pod.appLabel, namespace,
                 PodRecord(projectID, cluster, namespace, pod, localPort))
  {
    var tokens := PodRecordTokens(projectID, cluster, namespace, pod, localPort);
    PodTokens(projectID, cluster, namespace, pod, localPort);
    ParseRecord(tokens);
    PodTokensApplied(ZeroItem.(id := Concat(tokens), raw := Join(tokens, " ")),
                     projectID, cluster, namespace, pod, localPort);
  }
}
