/** The shared database: named trees of keys and values, opened on first use. */
module Database {
  import opened Basics

  /** Series ids are encoded numbers in the trees of the git side and text elsewhere. */
  datatype Key = Num(id: Id) | Text(text: string)

  datatype Value = Hello | New | Mbox(url: string) | Word(text: string) | Result(result: RunnerResult)

  type Tree = map<Key, Value>

  /** A key moved between two trees, or nothing when it is not there. */
  function Moved(trees: map<string, Tree>, inbound: string, outbound: string, key: Key): map<string, Tree> {
    var source := TreeIn(trees, inbound);
    if key !in source then trees
    else
      var without := trees[inbound := source - {key}];
      without[outbound := TreeIn(without, outbound)[key := source[key]]]
  }

  function TreeIn(trees: map<string, Tree>, name: string): Tree {
    if name in trees then trees[name] else map[]
  }

  class Db {
    var trees: map<string, Tree>

    constructor ()
      ensures trees == map[]
    {
      trees := map[];
    }

    function Open(name: string): Tree
      reads this
    {
      TreeIn(trees, name)
    }

    method Insert(name: string, key: Key, value: Value)
      modifies this
      ensures trees == old(trees)[name := TreeIn(old(trees), name)[key := value]]
      ensures TreeIn(trees, name) == TreeIn(old(trees), name)[key := value]
      ensures forall other :: other != name ==> TreeIn(trees, other) == TreeIn(old(trees), other)
    {
      trees := trees[name := Open(name)[key := value]];
    }

    method Remove(name: string, key: Key)
      modifies this
      ensures trees == old(trees)[name := TreeIn(old(trees), name) - {key}]
      ensures TreeIn(trees, name) == TreeIn(old(trees), name) - {key}
      ensures forall other :: other != name ==> TreeIn(trees, other) == TreeIn(old(trees), other)
    {
      trees := trees[name := Open(name) - {key}];
    }

    /** One attempt of the transaction. Without the key it aborts with `Conflict`, which the
        database answers by trying again. */
    method MoveToNewQueue(inbound: string, outbound: string, key: Key) returns (committed: bool)
      modifies this
      ensures committed <==> key in TreeIn(old(trees), inbound)
      ensures trees == Moved(old(trees), inbound, outbound, key)
    {
      if key !in Open(inbound) {
        return false;
      }
      var value := Open(inbound)[key];
      Remove(inbound, key);
      Insert(outbound, key, value);
      committed := true;
    }
  }

  /** A move loses and invents nothing: between two trees the value changes place, and every
      other entry of every tree stays. */
  lemma MoveConserves(trees: map<string, Tree>, inbound: string, outbound: string, key: Key)
    requires inbound != outbound && key in TreeIn(trees, inbound)
    ensures var after := Moved(trees, inbound, outbound, key);
            && key !in TreeIn(after, inbound)
            && key in TreeIn(after, outbound) && TreeIn(after, outbound)[key] == TreeIn(trees, inbound)[key]
            && TreeIn(after, inbound) == TreeIn(trees, inbound) - {key}
            && TreeIn(after, outbound) - {key} == TreeIn(trees, outbound) - {key}
            && (forall name :: name != inbound && name != outbound ==> TreeIn(after, name) == TreeIn(trees, name))
  {
  }

  /** A number of keys moved between two trees, each with its value. */
  ghost predicate MovedAll(before: map<string, Tree>, after: map<string, Tree>, inbound: string, outbound: string,
                           keys: seq<Key>) {
    && (forall key :: key in TreeIn(after, inbound) <==> key in TreeIn(before, inbound) && key !in keys)
    && (forall key :: key in TreeIn(after, inbound) ==> TreeIn(after, inbound)[key] == TreeIn(before, inbound)[key])
    && (forall key :: key in TreeIn(after, outbound) <==> key in TreeIn(before, outbound) || key in keys)
    && (forall key :: key in keys ==> key in TreeIn(before, inbound) && key in TreeIn(after, outbound)
                                      && TreeIn(after, outbound)[key] == TreeIn(before, inbound)[key])
    && (forall key :: key in TreeIn(before, outbound) && key !in keys ==>
          key in TreeIn(after, outbound) && TreeIn(after, outbound)[key] == TreeIn(before, outbound)[key])
    && (forall name :: name != inbound && name != outbound ==> TreeIn(after, name) == TreeIn(before, name))
  }

  lemma MovedAllNext(before: map<string, Tree>, now: map<string, Tree>, inbound: string, outbound: string,
                     keys: seq<Key>, key: Key)
    requires inbound != outbound && MovedAll(before, now, inbound, outbound, keys)
    requires key in TreeIn(before, inbound) && key !in keys
    ensures key in TreeIn(now, inbound)
    ensures MovedAll(before, Moved(now, inbound, outbound, key), inbound, outbound, keys + [key])
  {
    MoveConserves(now, inbound, outbound, key);
    var after := Moved(now, inbound, outbound, key);
    hide Moved, TreeIn;
    assert forall k :: k in keys + [key] <==> k in keys || k == key;
    assert TreeIn(after, outbound) - {key} == TreeIn(now, outbound) - {key};
    forall k | k != key
      ensures k in TreeIn(after, outbound) <==> k in TreeIn(now, outbound)
      ensures k in TreeIn(now, outbound) ==> TreeIn(after, outbound)[k] == TreeIn(now, outbound)[k]
    {
      assert k in TreeIn(after, outbound) <==> k in TreeIn(after, outbound) - {key};
      assert k in TreeIn(now, outbound) <==> k in TreeIn(now, outbound) - {key};
      assert k in TreeIn(now, outbound) ==>
               TreeIn(after, outbound)[k] == (TreeIn(after, outbound) - {key})[k] == (TreeIn(now, outbound) - {key})[k];
    }
  }

  // ---- reading a tree of strings ----

  /** What the iterator gives: a pair of texts, or an error. */
  type Item = Option<(string, string)>

  /** All pairs in the order of the keys, unless reading one of them failed. */
  method CollectStringValues(items: seq<Item>) returns (pairs: Option<seq<(string, string)>>)
    ensures pairs.None? <==> exists i :: 0 <= i < |items| && items[i].None?
    ensures pairs.Some? ==> |pairs.value| == |items| && forall i :: 0 <= i < |items| ==>
              items[i] == Some(pairs.value[i])
  {
    var collected: seq<(string, string)> := [];
    for i := 0 to |items|
      invariant |collected| == i
      invariant forall j :: 0 <= j < i ==> items[j] == Some(collected[j])
    {
      match items[i]
      case Some(pair) => collected := collected + [pair];
      case None => return None;
    }
    pairs := Some(collected);
  }
}
