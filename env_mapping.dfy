/**
 * The table of configuration keys that an environment variable can override
 * (backend/internal/config/env_mapping.go).
 */
module EnvMapping {
  import opened Strings

  const EnvKeyMap: map<string, string> := map[
    "qbittorrent.url" := "QBITTORRENT_URL",
    "qbittorrent.username" := "QBITTORRENT_USERNAME",
    "qbittorrent.password" := "QBITTORRENT_PASSWORD",
    "paths.destination" := "PATHS_DESTINATION",
    "paths.template" := "PATHS_TEMPLATE",
    "paths.no_series_template" := "PATHS_NO_SERIES_TEMPLATE",
    "paths.operation" := "PATHS_OPERATION",
    "paths.local_mount" := "PATHS_LOCAL_MOUNT",
    "monitor.interval_seconds" := "MONITOR_INTERVAL_SECONDS",
    "monitor.auto_organize" := "MONITOR_AUTO_ORGANIZE",
    "mam.baseurl" := "MAM_BASEURL",
    "mam.secret" := "MAM_SECRET"]

  /** The keys of the table, in the order written. */
  const MappedKeys: seq<string> := [
    "qbittorrent.url", "qbittorrent.username", "qbittorrent.password", "paths.destination",
    "paths.template", "paths.no_series_template", "paths.operation", "paths.local_mount",
    "monitor.interval_seconds", "monitor.auto_organize", "mam.baseurl", "mam.secret"]

  /** getEnvKey: the variable's name, or "" for a key that has none. */
  function GetEnvKey(key: string): (r: string)
    ensures key !in EnvKeyMap ==> r == []
    ensures key in EnvKeyMap ==> r == EnvKeyMap[key] && r != []
  {
    if key in EnvKeyMap then EnvKeyMap[key] else []
  }

  /** The naming rule for one character: a dot becomes an underscore, an
      ASCII lower-case letter its upper-case letter, anything else itself. */
  function RuleChar(c: char): (r: char)
    ensures c == '.' ==> r == '_'
    ensures c != '.' && IsAsciiLower(c) ==> IsAsciiUpper(r)
  {
    if c == '.' then '_' else ToUpperAscii(c)
  }

  /** The variable name the rule gives a key. */
  function EnvName(key: string): (r: string)
  {
    if key == [] then [] else [RuleChar(key[0])] + EnvName(key[1..])
  }

  /** A name follows the rule for a key, character by character. */
  predicate FollowsRule(key: string, name: string)
  {
    |name| == |key| && forall i :: 0 <= i < |key| ==> name[i] == RuleChar(key[i])
  }

  /** The recursive definition and the character-wise one agree. */
  lemma {:induction false} EnvNameFollowsRule(key: string, name: string)
    ensures FollowsRule(key, name) <==> EnvName(key) == name
  {
    EnvNameChars(key);
  }

  lemma {:induction false} EnvNameChars(key: string)
    ensures FollowsRule(key, EnvName(key))
  {
    if key != [] {
      EnvNameChars(key[1..]);
    }
  }

  /** Every entry follows the naming rule. */
  lemma TableFollowsNamingRule()
    ensures forall k :: k in EnvKeyMap ==> EnvKeyMap[k] == EnvName(k)
  {
    forall k | k in EnvKeyMap
      ensures EnvKeyMap[k] == EnvName(k)
    {
      assert k in MappedKeys;
      var i :| 0 <= i < |MappedKeys| && MappedKeys[i] == k;
      EntryFollowsRule(i);
      EnvNameFollowsRule(k, EnvKeyMap[k]);
    }
  }

  /** The entry at a position of the table follows the rule. */
  lemma EntryFollowsRule(i: nat)
    requires i < |MappedKeys|
    ensures MappedKeys[i] in EnvKeyMap && FollowsRule(MappedKeys[i], EnvKeyMap[MappedKeys[i]])
  {
    match i
    case 0 => Entry0();
    case 1 => Entry1();
    case 2 => Entry2();
    case 3 => Entry3();
    case 4 => Entry4();
    case 5 => Entry5();
    case 6 => Entry6();
    case 7 => Entry7();
    case 8 => Entry8();
    case 9 => Entry9();
    case 10 => Entry10();
    case 11 => Entry11();
  }

  /** The rule on the characters the keys are made of. */
  lemma RuleTable()
    ensures RuleChar('.') == '_' && RuleChar('_') == '_'
    ensures RuleChar('a') == 'A' && RuleChar('b') == 'B' && RuleChar('c') == 'C' && RuleChar('d') == 'D' && RuleChar('e') == 'E' && RuleChar('f') == 'F'
    ensures RuleChar('g') == 'G' && RuleChar('h') == 'H' && RuleChar('i') == 'I' && RuleChar('j') == 'J' && RuleChar('k') == 'K' && RuleChar('l') == 'L'
    ensures RuleChar('m') == 'M' && RuleChar('n') == 'N' && RuleChar('o') == 'O' && RuleChar('p') == 'P' && RuleChar('q') == 'Q' && RuleChar('r') == 'R'
    ensures RuleChar('s') == 'S' && RuleChar('t') == 'T' && RuleChar('u') == 'U' && RuleChar('v') == 'V' && RuleChar('w') == 'W' && RuleChar('x') == 'X'
    ensures RuleChar('y') == 'Y' && RuleChar('z') == 'Z'
  {
  }

  // One lemma per entry, each checking one key and its variable.
  lemma Entry0() ensures MappedKeys[0] in EnvKeyMap && FollowsRule(MappedKeys[0], EnvKeyMap[MappedKeys[0]])
  {
    RuleTable();
    assert MappedKeys[0] == "qbittorrent.url" && EnvKeyMap["qbittorrent.url"] == "QBITTORRENT_URL";
    assert FollowsRule("qbittorrent.url", "QBITTORRENT_URL");
  }
  lemma Entry1() ensures MappedKeys[1] in EnvKeyMap && FollowsRule(MappedKeys[1], EnvKeyMap[MappedKeys[1]])
  {
    RuleTable();
    assert MappedKeys[1] == "qbittorrent.username" && EnvKeyMap["qbittorrent.username"] == "QBITTORRENT_USERNAME";
    assert FollowsRule("qbittorrent.username", "QBITTORRENT_USERNAME");
  }
  lemma Entry2() ensures MappedKeys[2] in EnvKeyMap && FollowsRule(MappedKeys[2], EnvKeyMap[MappedKeys[2]])
  {
    RuleTable();
    assert MappedKeys[2] == "qbittorrent.password" && EnvKeyMap["qbittorrent.password"] == "QBITTORRENT_PASSWORD";
    assert FollowsRule("qbittorrent.password", "QBITTORRENT_PASSWORD");
  }
  lemma Entry3() ensures MappedKeys[3] in EnvKeyMap && FollowsRule(MappedKeys[3], EnvKeyMap[MappedKeys[3]])
  {
    RuleTable();
    assert MappedKeys[3] == "paths.destination" && EnvKeyMap["paths.destination"] == "PATHS_DESTINATION";
    assert FollowsRule("paths.destination", "PATHS_DESTINATION");
  }
  lemma Entry4() ensures MappedKeys[4] in EnvKeyMap && FollowsRule(MappedKeys[4], EnvKeyMap[MappedKeys[4]])
  {
    RuleTable();
    assert MappedKeys[4] == "paths.template" && EnvKeyMap["paths.template"] == "PATHS_TEMPLATE";
    assert FollowsRule("paths.template", "PATHS_TEMPLATE");
  }
  lemma Entry5() ensures MappedKeys[5] in EnvKeyMap && FollowsRule(MappedKeys[5], EnvKeyMap[MappedKeys[5]])
  {
    RuleTable();
    assert MappedKeys[5] == "paths.no_series_template" && EnvKeyMap["paths.no_series_template"] == "PATHS_NO_SERIES_TEMPLATE";
    assert FollowsRule("paths.no_series_template", "PATHS_NO_SERIES_TEMPLATE");
  }
  lemma Entry6() ensures MappedKeys[6] in EnvKeyMap && FollowsRule(MappedKeys[6], EnvKeyMap[MappedKeys[6]])
  {
    RuleTable();
    assert MappedKeys[6] == "paths.operation" && EnvKeyMap["paths.operation"] == "PATHS_OPERATION";
    assert FollowsRule("paths.operation", "PATHS_OPERATION");
  }
  lemma Entry7() ensures MappedKeys[7] in EnvKeyMap && FollowsRule(MappedKeys[7], EnvKeyMap[MappedKeys[7]])
  {
    RuleTable();
    assert MappedKeys[7] == "paths.local_mount" && EnvKeyMap["paths.local_mount"] == "PATHS_LOCAL_MOUNT";
    assert FollowsRule("paths.local_mount", "PATHS_LOCAL_MOUNT");
  }
  lemma Entry8() ensures MappedKeys[8] in EnvKeyMap && FollowsRule(MappedKeys[8], EnvKeyMap[MappedKeys[8]])
  {
    RuleTable();
    assert MappedKeys[8] == "monitor.interval_seconds" && EnvKeyMap["monitor.interval_seconds"] == "MONITOR_INTERVAL_SECONDS";
    assert FollowsRule("monitor.interval_seconds", "MONITOR_INTERVAL_SECONDS");
  }
  lemma Entry9() ensures MappedKeys[9] in EnvKeyMap && FollowsRule(MappedKeys[9], EnvKeyMap[MappedKeys[9]])
  {
    RuleTable();
    assert MappedKeys[9] == "monitor.auto_organize" && EnvKeyMap["monitor.auto_organize"] == "MONITOR_AUTO_ORGANIZE";
    assert FollowsRule("monitor.auto_organize", "MONITOR_AUTO_ORGANIZE");
  }
  lemma Entry10() ensures MappedKeys[10] in EnvKeyMap && FollowsRule(MappedKeys[10], EnvKeyMap[MappedKeys[10]])
  {
    RuleTable();
    assert MappedKeys[10] == "mam.baseurl" && EnvKeyMap["mam.baseurl"] == "MAM_BASEURL";
    assert FollowsRule("mam.baseurl", "MAM_BASEURL");
  }
  lemma Entry11() ensures MappedKeys[11] in EnvKeyMap && FollowsRule(MappedKeys[11], EnvKeyMap[MappedKeys[11]])
  {
    RuleTable();
    assert MappedKeys[11] == "mam.secret" && EnvKeyMap["mam.secret"] == "MAM_SECRET";
    assert FollowsRule("mam.secret", "MAM_SECRET");
  }

  /** The table lists exactly the twelve keys. */
  lemma TableKeys()
    ensures EnvKeyMap.Keys == set k | k in MappedKeys
    ensures |MappedKeys| == 12
    ensures forall i, j :: 0 <= i < j < |MappedKeys| ==> MappedKeys[i] != MappedKeys[j]
  {
  }

  /** No two keys share a variable. */
  lemma TableInjective()
    ensures forall a, b :: a in EnvKeyMap && b in EnvKeyMap && a != b ==> EnvKeyMap[a] != EnvKeyMap[b]
  {
    forall a, b | a in EnvKeyMap && b in EnvKeyMap && a != b
      ensures EnvKeyMap[a] != EnvKeyMap[b]
    {
      assert Signature(EnvKeyMap[a]) != Signature(EnvKeyMap[b]);
    }
  }

  /** The length of a name and three of its characters, which tell the
      table's variables apart. */
  function Signature(name: string): (int, char, char, char)
  {
    (|name|, if |name| > 0 then name[0] else ' ', if |name| > 6 then name[6] else ' ',
     if |name| > 12 then name[12] else ' ')
  }

  /** The monitor's auto-organize switch, "organization.auto_organize", is not a
      key an environment variable can override. */
  lemma AutoOrganizeSwitchNotMapped()
    ensures GetEnvKey("organization.auto_organize") == []
  {
    assert "organization.auto_organize" !in EnvKeyMap;
  }
}
