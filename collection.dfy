/** The ordered gesture store: three parallel sequences, so that entry i is
    (signals[i], names[i], commands[i]); the order is the order in which the
    dispatcher tries the signals. */
module SignalCollection {
  import opened HandSignals

  /** One stored gesture. */
  datatype Entry = Entry(signal: HandSignal, name: string, command: string)

  /** The entries the three parallel sequences describe. */
  function Zip(signals: seq<HandSignal>, names: seq<string>, commands: seq<string>): (r: seq<Entry>)
    requires |signals| == |names| == |commands|
    ensures |r| == |signals|
    ensures forall i :: 0 <= i < |r| ==> r[i] == Entry(signals[i], names[i], commands[i])
  {
    seq(|signals|, i requires 0 <= i < |signals| => Entry(signals[i], names[i], commands[i]))
  }

  /** The sequence without its element at index i: the elements before i keep
      their index, the ones after it move down by one. */
  function Removed<T>(s: seq<T>, i: int): (r: seq<T>)
    requires 0 <= i < |s|
    ensures |r| == |s| - 1
    ensures forall k :: 0 <= k < i ==> r[k] == s[k]
    ensures forall k :: i <= k < |r| ==> r[k] == s[k + 1]
  {
    s[..i] + s[i + 1..]
  }

  /** The index of the first entry called `name`, or -1 when there is none. */
  function FirstIndex(names: seq<string>, name: string): (k: int)
    ensures -1 <= k < |names|
    ensures k == -1 <==> name !in names
    ensures k >= 0 ==> names[k] == name && forall j :: 0 <= j < k ==> names[j] != name
  {
    if |names| == 0 then -1
    else if names[0] == name then 0
    else
      var k := FirstIndex(names[1..], name);
      assert names == [names[0]] + names[1..];
      if k == -1 then -1 else k + 1
  }

  class HandSignalCollection {
    var signals: seq<HandSignal>
    var names: seq<string>
    var commands: seq<string>

    ghost predicate Valid()
      reads this
    {
      |signals| == |names| == |commands|
    }

    ghost function Entries(): seq<Entry>
      reads this
      requires Valid()
    {
      Zip(signals, names, commands)
    }

    constructor ()
      ensures Valid() && Entries() == []
    {
      signals, names, commands := [], [], [];
    }

    /** Appends one entry at the end; every existing entry keeps its index. */
    method Add(hs: HandSignal, name: string, command: string) returns (ok: bool)
      requires Valid()
      modifies this
      ensures Valid() && ok
      ensures Entries() == old(Entries()) + [Entry(hs, name, command)]
    {
      signals := signals + [hs];
      names := names + [name];
      commands := commands + [command];
      ok := true;
    }

    /** Removes entry i when there is one; an index out of range changes nothing. */
    method RemoveAt(i: int) returns (ok: bool)
      requires Valid()
      modifies this
      ensures Valid()
      ensures ok <==> 0 <= i < |old(Entries())|
      ensures Entries() == if ok then Removed(old(Entries()), i) else old(Entries())
    {
      if i < 0 || i >= |signals| {
        return false;
      }
      ghost var before := Entries();
      signals := Removed(signals, i);
      names := Removed(names, i);
      commands := Removed(commands, i);
      assert Entries() == Removed(before, i);
      return true;
    }

    /** Removes the first entry with exactly this name, reporting whether there was one. */
    method RemoveByName(name: string) returns (ok: bool)
      requires Valid()
      modifies this
      ensures Valid()
      ensures ok <==> name in old(names)
      ensures Entries() == if ok then Removed(old(Entries()), FirstIndex(old(names), name)) else old(Entries())
    {
      var k := 0;
      while k < |names| && names[k] != name
        invariant 0 <= k <= |names|
        invariant forall j :: 0 <= j < k ==> names[j] != name
      {
        k := k + 1;
      }
      if k == |names| {
        return false;
      }
      assert names[k] == name;
      assert k == FirstIndex(names, name);
      ok := RemoveAt(k);
    }

    function GetName(i: int): (name: string)
      reads this
      requires Valid() && 0 <= i < |names|
      ensures name == Entries()[i].name
    {
      names[i]
    }

    function GetCommand(i: int): (command: string)
      reads this
      requires Valid() && 0 <= i < |commands|
      ensures command == Entries()[i].command
    {
      commands[i]
    }
  }
}
