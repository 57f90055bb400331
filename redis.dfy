/**
 * The Redis wrapper: the parser of `redis-cli info` output into the six
 * fields the panel shows, and the flush and restart commands.
 */
module Redis {
  import opened Text
  import opened World

  const InfoCommand := "redis-cli info"
  const FlushFailed := "Failed to flush Redis: "

  /** The fields shown for the server; a key absent from the output stays absent. */
  datatype Info = Info(
    version: Option<string>,
    usedMemoryHuman: Option<string>,
    connectedClients: Option<string>,
    uptimeDays: Option<string>,
    totalConnectionsReceived: Option<string>,
    totalCommandsProcessed: Option<string>)

  /**
   * The key and value one line records: none for an empty line, a `#`
   * section header, or a line that does not split into exactly two parts
   * on `:`; the value is trimmed, the key is kept as it is.
   */
  function Entry(line: string): Option<(string, string)> {
    if line == [] || StartsWith(line, "#") then None
    else
      var parts := Split(line, ':');
      if |parts| == 2 then Some((parts[0], Trim(parts[1]))) else None
  }

  /** What a line that reads as `entry` does to the dictionary. */
  function Absorb(data: map<string, string>, entry: Option<(string, string)>): map<string, string> {
    match entry
    case None => data
    case Some((k, v)) => data[k := v]
  }

  /** The dictionary lines fill in, read by any line reader: each entry overwrites its key. */
  function Fill(read: string -> Option<(string, string)>, lines: seq<string>): map<string, string> {
    if lines == [] then map[] else Absorb(Fill(read, lines[..|lines| - 1]), read(lines[|lines| - 1]))
  }

  /** The dictionary the lines of the output fill in. */
  function DataOf(lines: seq<string>): map<string, string> {
    Fill(Entry, lines)
  }

  lemma DataStep(lines: seq<string>, i: nat)
    requires i < |lines|
    ensures DataOf(lines[..i + 1]) == Absorb(DataOf(lines[..i]), Entry(lines[i]))
  {
    assert lines[..i + 1][..i] == lines[..i];
  }

  /** The `forEach` of `parseRedisInfo`, filling the dictionary in place. */
  method ParseData(info: string) returns (data: map<string, string>)
    ensures data == DataOf(Split(info, '\n'))
  {
    var lines := Split(info, '\n');
    data := map[];
    var i := 0;
    while i < |lines|
      invariant 0 <= i <= |lines|
      invariant data == DataOf(lines[..i])
    {
      var line := lines[i];
      DataStep(lines, i);
      if line != [] && !StartsWith(line, "#") {
        var parts := Split(line, ':');
        if |parts| == 2 {
          data := data[parts[0] := Trim(parts[1])];
        } else {
          assert Entry(line) == None;
        }
      }
      i := i + 1;
    }
    assert lines[..i] == lines;
  }

  function Get(data: map<string, string>, key: string): Option<string> {
    if key in data then Some(data[key]) else None
  }

  /** The six keys the result keeps. */
  function Project(data: map<string, string>): Info {
    Info(
      Get(data, "redis_version"),
      Get(data, "used_memory_human"),
      Get(data, "connected_clients"),
      Get(data, "uptime_in_days"),
      Get(data, "total_connections_received"),
      Get(data, "total_commands_processed"))
  }

  /** `parseRedisInfo`. */
  method ParseRedisInfo(info: string) returns (r: Info)
    ensures r == Project(DataOf(Split(info, '\n')))
  {
    var data := ParseData(info);
    r := Project(data);
  }

  /** The reader records a value for `key` from the line. */
  predicate Records(read: string -> Option<(string, string)>, line: string, key: string) {
    read(line).Some? && read(line).value.0 == key
  }

  /** A key is in the dictionary exactly when some line records it. */
  lemma {:induction false} RecordedKeys(read: string -> Option<(string, string)>, lines: seq<string>, key: string)
    ensures key in Fill(read, lines) <==> exists i | 0 <= i < |lines| :: Records(read, lines[i], key)
  {
    if lines != [] {
      var n := |lines| - 1;
      var init := lines[..n];
      RecordedKeys(read, init, key);
      if exists i | 0 <= i < |lines| :: Records(read, lines[i], key) {
        var i :| 0 <= i < |lines| && Records(read, lines[i], key);
        if i < n {
          assert Records(read, init[i], key);
        }
      }
      if key in Fill(read, init) {
        var i :| 0 <= i < n && Records(read, init[i], key);
        assert Records(read, lines[i], key);
      }
    }
  }

  /** The value of a key is the one recorded by the last line that records it. */
  lemma {:induction false} LastLineWins(read: string -> Option<(string, string)>, lines: seq<string>, key: string)
    requires key in Fill(read, lines)
    ensures exists i | 0 <= i < |lines| ::
      && read(lines[i]) == Some((key, Fill(read, lines)[key]))
      && forall j | i < j < |lines| :: !Records(read, lines[j], key)
  {
    var n := |lines| - 1;
    var init := lines[..n];
    if Records(read, lines[n], key) {
      assert read(lines[n]) == Some((key, Fill(read, lines)[key]));
    } else {
      LastLineWins(read, init, key);
      var i :| 0 <= i < n && read(init[i]) == Some((key, Fill(read, init)[key]))
        && forall j | i < j < n :: !Records(read, init[j], key);
      assert read(lines[i]) == Some((key, Fill(read, lines)[key]));
      assert forall j | i < j < |lines| :: !Records(read, lines[j], key) by {
        forall j | i < j < |lines| ensures !Records(read, lines[j], key) {
          if j < n {
            assert lines[j] == init[j];
          }
        }
      }
    }
  }

  /** A `key:value` line records its key and the trimmed value. */
  lemma EntryOfLine(key: string, value: string)
    requires key != [] && key[0] != '#' && ':' !in key && ':' !in value
    ensures Entry(key + ":" + value) == Some((key, Trim(value)))
  {
    var line := key + ":" + value;
    assert Join([key, value], [':']) == line;
    SplitJoin([key, value], ':');
    assert line[..1] == [key[0]];
  }

  /** `getInfo`: no information when the command fails. */
  method GetInfo(h: Host) returns (r: Option<Info>)
    modifies h`log
    ensures h.log == old(h.log) + [Run(InfoCommand)]
    ensures match old(h.Next(Run(InfoCommand)))
      case Failed(_) => r == None
      case Done(out, _) => r == Some(Project(DataOf(Split(out, '\n'))))
  {
    var o := h.Exec(Run(InfoCommand));
    if o.Failed? {
      return None;
    }
    var info := ParseRedisInfo(o.stdout);
    return Some(info);
  }

  /** `flushAll`: the failure carries the flush prefix. */
  method FlushAll(h: Host) returns (r: Result<()>)
    modifies h`log
    ensures h.log == old(h.log) + [Run("redis-cli flushall")]
    ensures match old(h.Next(Run("redis-cli flushall")))
      case Failed(m) => r == Err(FlushFailed + m)
      case Done(_, _) => r == Ok(())
  {
    var o := h.Exec(Run("redis-cli flushall"));
    if o.Failed? {
      return Err(FlushFailed + o.message);
    }
    return Ok(());
  }

  /** `restart`: the command's own error passes through. */
  method Restart(h: Host) returns (r: Result<()>)
    modifies h`log
    ensures h.log == old(h.log) + [Run("systemctl restart redis-server")]
    ensures match old(h.Next(Run("systemctl restart redis-server")))
      case Failed(m) => r == Err(m)
      case Done(_, _) => r == Ok(())
  {
    var o := h.Exec(Run("systemctl restart redis-server"));
    if o.Failed? {
      return Err(o.message);
    }
    return Ok(());
  }
}
