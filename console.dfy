/** The console store (`useConsole`): the most recent log entries, newest first. */
module Console {
  import opened Numbers
  import opened Types

  /** The store keeps this many entries. */
  const Capacity := 20

  /** `isLogType`: the console methods whose calls are recorded. */
  predicate IsLogType(name: string)
  {
    name == "info" || name == "warn" || name == "error"
  }

  /** The log type of a recorded console method. */
  function LogTypeOf(name: string): (kind: LogType)
    requires IsLogType(name)
    ensures kind.Name() == name
  {
    if name == "info" then Info else if name == "warn" then Warn else Error
  }

  /** The recorded methods are exactly those named by a log type other than "success". */
  lemma LogTypeNames(name: string)
    ensures IsLogType(name) <==> exists k: LogType :: k != Success && k.Name() == name
  {
    if IsLogType(name) {
      assert LogTypeOf(name) != Success && LogTypeOf(name).Name() == name;
    }
  }

  /**
   * One argument of a console call: a string, an integer, a boolean, `undefined`, or an
   * object given by its `JSON.stringify` text (`null` is the object whose text is "null").
   */
  datatype Argument = Text(text: string) | Integer(n: int) | Boolean(b: bool) | Undefined | Object(json: string)

  /** An argument as `join` writes it: objects as their JSON text, `undefined` as nothing. */
  function Render(a: Argument): string
  {
    match a
    case Text(t) => t
    case Integer(n) => Decimal(n)
    case Boolean(b) => if b then "true" else "false"
    case Undefined => ""
    case Object(json) => json
  }

  /** `parts.join(" ")`. */
  function Join(parts: seq<string>): string
  {
    if parts == [] then ""
    else if |parts| == 1 then parts[0]
    else parts[0] + " " + Join(parts[1..])
  }

  function Rendered(contents: seq<Argument>): (r: seq<string>)
    ensures |r| == |contents|
    ensures forall i :: 0 <= i < |contents| ==> r[i] == Render(contents[i])
  {
    if contents == [] then [] else [Render(contents[0])] + Rendered(contents[1..])
  }

  /** The message of an entry: the arguments rendered and joined by single spaces. */
  function Message(contents: seq<Argument>): string
  {
    Join(Rendered(contents))
  }

  /** Joining one more part adds a single space and the part at the end. */
  lemma {:induction false} JoinSnoc(parts: seq<string>, last: string)
    requires parts != []
    ensures Join(parts + [last]) == Join(parts) + " " + last
    decreases |parts|
  {
    if |parts| == 1 {
      assert (parts + [last])[1..] == [last];
    } else {
      assert (parts + [last])[1..] == parts[1..] + [last];
      JoinSnoc(parts[1..], last);
    }
  }

  /** A message ends with the last argument, after a single space, as soon as there are two. */
  lemma MessageSnoc(contents: seq<Argument>, last: Argument)
    requires contents != []
    ensures Message(contents + [last]) == Message(contents) + " " + Render(last)
  {
    assert Rendered(contents + [last]) == Rendered(contents) + [Render(last)];
    JoinSnoc(Rendered(contents), Render(last));
  }

  /** The entry `log` builds; the id and the timestamp come from the clock and a random source. */
  function Entry(kind: LogType, contents: seq<Argument>, id: string, timestamp: int): ConsoleLog
  {
    ConsoleLog(id, kind, Message(contents), timestamp)
  }

  /** The list after `log`: the entry, then the first 19 of the previous entries. */
  function Logged(logs: seq<ConsoleLog>, entry: ConsoleLog): seq<ConsoleLog>
  {
    [entry] + logs[..if |logs| < Capacity - 1 then |logs| else Capacity - 1]
  }

  /**
   * After `log` the new entry comes first; the rest are the most recent previous entries, in
   * their order, up to 19 of them; and so the list never holds more than 20 entries.
   */
  lemma LoggedShape(logs: seq<ConsoleLog>, entry: ConsoleLog)
    ensures var r := Logged(logs, entry);
            r[0] == entry && r[1..] <= logs && |r| <= Capacity
            && |r| == (if |logs| < Capacity then |logs| + 1 else Capacity)
            && (|logs| <= Capacity ==> |r| <= |logs| + 1)
  {
    var r := Logged(logs, entry);
    assert r[1..] == logs[..|r| - 1];
  }

  /** A full list loses its oldest entries: the entry at index 19 and any after it. */
  lemma LoggedDropsOldest(logs: seq<ConsoleLog>, entry: ConsoleLog)
    requires |logs| >= Capacity - 1
    ensures Logged(logs, entry) == [entry] + logs[..Capacity - 1]
    ensures forall i :: 0 <= i < Capacity - 1 ==> Logged(logs, entry)[i + 1] == logs[i]
  {
  }

  /** The store object. */
  class ConsoleStore {
    var logs: seq<ConsoleLog>

    constructor ()
      ensures logs == []
    {
      logs := [];
    }

    /** `log`: the previous list is sliced, the new entry put in front, and the list replaced. */
    method Log(kind: LogType, contents: seq<Argument>, id: string, timestamp: int)
      modifies this
      ensures logs == Logged(old(logs), Entry(kind, contents, id, timestamp))
    {
      var sliced := logs[..if |logs| < Capacity - 1 then |logs| else Capacity - 1];
      sliced := [ConsoleLog(id, kind, Message(contents), timestamp)] + sliced;
      logs := sliced;
    }
  }
}
