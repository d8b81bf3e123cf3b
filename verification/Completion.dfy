/**
 The word completion of core/src/readline.c:10-28: a generator that keeps its place in the
 command list, and the length of the prefix, from one call to the next.
 */
module Completion {
  import opened CStrings

  /** strncmp(name, text, len) == 0 for len == strlen(text). */
  predicate StartsWith(name: string, text: string)
  {
    text <= name
  }

  /** The entries of the list that start with the text, in order. */
  function Matching(names: seq<string>, text: string): seq<string>
  {
    if names == [] then []
    else if StartsWith(names[0], text) then [names[0]] + Matching(names[1..], text)
    else Matching(names[1..], text)
  }

  /** Every entry that matches is there, as often as in the list, and nothing else is. */
  lemma {:induction false} MatchingIsFilter(names: seq<string>, text: string)
    ensures forall n :: multiset(Matching(names, text))[n] == if text <= n then multiset(names)[n] else 0
  {
    if names != [] {
      MatchingIsFilter(names[1..], text);
      assert names == [names[0]] + names[1..];
    }
  }

  /** In the order of the list. */
  lemma {:induction false} MatchingInOrder(a: seq<string>, b: seq<string>, text: string)
    ensures Matching(a + b, text) == Matching(a, text) + Matching(b, text)
  {
    if a == [] {
      assert a + b == b;
    } else {
      assert (a + b)[1..] == a[1..] + b;
      MatchingInOrder(a[1..], b, text);
    }
  }

  class Generator {
    /** gCommands up to its NULL. */
    const gCommands: seq<string>
    var listIndex: nat
    var len: nat

    constructor (gCommands: seq<string>)
      ensures this.gCommands == gCommands && listIndex == 0
    {
      this.gCommands := gCommands;
      listIndex, len := 0, 0;
    }

    /** The generator is in the middle of a completion of the text. */
    ghost predicate Ready(text: string)
      reads this
    {
      listIndex <= |gCommands| && len == |text|
    }

    /** The completions still to come. */
    ghost function Left(text: string): seq<string>
      requires Ready(text)
      reads this
    {
      Matching(gCommands[listIndex..], text)
    }

    /** One call; state 0 starts over, wherever the last completion stopped.  None stands for NULL. */
    method Generate(text: string, state: int) returns (name: Option<string>)
      requires state != 0 ==> Ready(text)
      modifies this
      ensures Ready(text)
      ensures var todo := if state == 0 then Matching(gCommands, text) else old(if state != 0 then Left(text) else []);
        if todo == [] then name == None && Left(text) == [] else name == Some(todo[0]) && Left(text) == todo[1..]
    {
      if state == 0 {
        listIndex := 0;
        len := |text|;
      }
      ghost var todo := Left(text);
      assert state == 0 ==> gCommands[0..] == gCommands;
      while listIndex < |gCommands|
        invariant Ready(text) && Left(text) == todo
        decreases |gCommands| - listIndex
      {
        var candidate := gCommands[listIndex];
        assert gCommands[listIndex..][1..] == gCommands[listIndex + 1..];
        listIndex := listIndex + 1;
        if |candidate| >= len && candidate[..len] == text[..len] {
          return Some(candidate);
        }
      }
      return None;
    }

    /** rl_completion_matches: state 0 first, then other states, until NULL. */
    method Matches(text: string) returns (names: seq<string>)
      modifies this
      ensures names == Matching(gCommands, text)
    {
      names := [];
      var name := Generate(text, 0);
      while name.Some?
        invariant Ready(text)
        invariant Matching(gCommands, text) == names + (if name.Some? then [name.value] + Left(text) else [])
        decreases if name.Some? then 1 + |Left(text)| else 0
      {
        names := names + [name.value];
        name := Generate(text, 1);
      }
    }
  }
}
