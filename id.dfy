/** Identifiers of Navitia objects and the guess of an object's type from its identifier
    (types/id.go). */
module Ids {
  import opened Wrappers

  /** An identifier as sent by the Navitia API, e.g. "stop_area:OIF:SA:1". */
  type ID = string

  /** The error `Check` reports; the text of the Go message is not modelled. */
  datatype IdError = EmptyId

  /** `ID.Check`: `None` is Go's nil error. */
  function Check(id: ID): (err: Option<IdError>)
    ensures err.Some? <==> id == []
  {
    if |id| == 0 then Some(EmptyId) else None
  }

  /** Every non-empty identifier is accepted. */
  lemma CheckAcceptsNonEmpty(id: ID)
    requires |id| > 0
    ensures Check(id) == None
  {
  }

  /** `typeNames`: the navitia-side names of the types that may head an identifier.
      Looking up a missing key yields Go's zero value `false`. */
  const TypeNames: map<string, bool> := map[
    "network" := true,
    "line" := true,
    "route" := true,
    "stop_area" := true,
    "commercial_mode" := true,
    "physical_mode" := true,
    "company" := true,
    "admin" := true,
    "stop_point" := true
  ]

  /** The nine known type names as a set. */
  const KnownTypes: set<string> := {
    "network", "line", "route", "stop_area", "commercial_mode",
    "physical_mode", "company", "admin", "stop_point"
  }

  /** `typeNames[name]` in Go: the stored flag, or `false` for a missing key. */
  predicate IsTypeName(name: string)
  {
    name in TypeNames && TypeNames[name]
  }

  /** The map lookup accepts exactly the nine known names. */
  lemma IsTypeNameIffKnown(name: string)
    ensures IsTypeName(name) <==> name in KnownTypes
  {
  }

  /** No known type name contains the separator ':' (nor is empty). */
  lemma KnownTypesHaveNoColon(name: string)
    requires name in KnownTypes
    ensures ':' !in name && name != []
  {
  }

  // ---------------------------------------------------------------------------
  // strings.Split and strings.Join for a one-character separator

  /** `strings.Join(parts, string(sep))` for a non-empty list of parts. */
  function Join(parts: seq<string>, sep: char): (s: string)
    requires |parts| >= 1
    decreases |parts|
  {
    if |parts| == 1 then parts[0] else parts[0] + [sep] + Join(parts[1..], sep)
  }

  /** `strings.Split(s, string(sep))`: the pieces of `s` between the occurrences of `sep`.
      There is always at least one piece; no piece contains the separator; joining the
      pieces back gives `s`. */
  function Split(s: string, sep: char): (parts: seq<string>)
    ensures |parts| >= 1
    ensures forall i :: 0 <= i < |parts| ==> sep !in parts[i]
    ensures Join(parts, sep) == s
    decreases |s|
  {
    if s == [] then [[]]
    else if s[0] == sep then [[]] + Split(s[1..], sep)
    else
      var rest := Split(s[1..], sep);
      [[s[0]] + rest[0]] + rest[1..]
  }

  /** Splitting a join of separator-free pieces gives the pieces back: together with the
      postcondition of `Split`, the two are inverse bijections. */
  lemma {:induction false} SplitJoin(parts: seq<string>, sep: char)
    requires |parts| >= 1
    requires forall i :: 0 <= i < |parts| ==> sep !in parts[i]
    ensures Split(Join(parts, sep), sep) == parts
    decreases |parts|
  {
    if |parts| == 1 {
      SplitNoSeparator(parts[0], sep);
    } else {
      var tail := parts[1..];
      forall i | 0 <= i < |tail| ensures sep !in tail[i] {
        assert tail[i] == parts[i + 1];
      }
      SplitJoin(tail, sep);
      SplitAfterHead(parts[0], Join(tail, sep), sep);
    }
  }

  /** A string without the separator is a single piece. */
  lemma SplitNoSeparator(s: string, sep: char)
    requires sep !in s
    ensures Split(s, sep) == [s]
  {
  }

  /** Splitting `head + sep + tail`, where `head` has no separator, yields `head` followed
      by the pieces of `tail`. */
  lemma {:induction false} SplitAfterHead(head: string, tail: string, sep: char)
    requires sep !in head
    ensures Split(head + [sep] + tail, sep) == [head] + Split(tail, sep)
    decreases |head|
  {
    var s := head + [sep] + tail;
    if head == [] {
      assert s[1..] == tail;
    } else {
      assert sep !in head[1..] by {
        forall i | 0 <= i < |head[1..]| ensures head[1..][i] != sep {
          assert head[1..][i] == head[i + 1];
        }
      }
      SplitAfterHead(head[1..], tail, sep);
      assert s[1..] == head[1..] + [sep] + tail;
      assert [head[0]] + head[1..] == head;
    }
  }

  // ---------------------------------------------------------------------------
  // ID.Type

  /** `ID.Type`: the piece before the first ':' if it is a known type name, else "".
      The `|splitted| == 0` branch of the Go code is kept, although `Split` never
      returns an empty list. */
  function Type(id: ID): (t: string)
    ensures t == [] || t in KnownTypes
    ensures t != [] ==> t == Split(id, ':')[0]
    ensures t == [] <==> Split(id, ':')[0] !in KnownTypes
  {
    var splitted := Split(id, ':');
    if |splitted| == 0 then ""
    else
      var possible := splitted[0];
      if IsTypeName(possible) then possible else ""
  }

  /** `id` starts with the segment `seg`: it is `seg` itself or `seg` followed by ':'. */
  predicate HeadedBy(id: ID, seg: string)
  {
    id == seg || seg + [':'] <= id
  }

  /** The first piece of a split heads the string. */
  lemma FirstPieceHeads(s: string, sep: char)
    ensures var p := Split(s, sep)[0]; s == p || p + [sep] <= s
  {
  }

  /** A separator-free segment heading a string is its first piece. */
  lemma FirstPieceUnique(s: string, seg: string)
    requires ':' !in seg
    requires HeadedBy(s, seg)
    ensures Split(s, ':')[0] == seg
  {
    if s == seg {
      SplitNoSeparator(s, ':');
    } else {
      var tail := s[|seg| + 1..];
      assert s == seg + [':'] + tail;
      SplitAfterHead(seg, tail, ':');
    }
  }

  /** Declarative reading of `Type`: it returns a known name exactly when the identifier
      is headed by that name, and "" exactly when no known name heads it. */
  lemma TypeCharacterised(id: ID, t: string)
    ensures Type(id) == t <==>
      (t in KnownTypes && HeadedBy(id, t)) ||
      (t == [] && forall n :: n in KnownTypes ==> !HeadedBy(id, n))
  {
    var p := Split(id, ':')[0];
    FirstPieceHeads(id, ':');
    assert HeadedBy(id, p);
    if t in KnownTypes && HeadedBy(id, t) {
      KnownTypesHaveNoColon(t);
      FirstPieceUnique(id, t);
    }
    if p in KnownTypes {
      assert !(forall n :: n in KnownTypes ==> !HeadedBy(id, n));
    } else {
      forall n | n in KnownTypes ensures !HeadedBy(id, n) {
        if HeadedBy(id, n) {
          KnownTypesHaveNoColon(n);
          FirstPieceUnique(id, n);
        }
      }
    }
  }

  /** The type depends only on the text before the first ':': whatever follows it, and
      whether a ':' follows at all, never changes the result. */
  lemma TypeIgnoresRest(head: string, rest: string)
    requires ':' !in head
    ensures Type(head + [':'] + rest) == Type(head)
  {
    SplitAfterHead(head, rest, ':');
    SplitNoSeparator(head, ':');
  }

  /** A known head is returned whatever follows it. */
  lemma TypeOfStopAreaId()
    ensures Type("stop_area:OIF:SA:1") == "stop_area"
  {
    var head, rest := "stop_area", "OIF:SA:1";
    assert head + [':'] + rest == "stop_area:OIF:SA:1";
    TypeIgnoresRest(head, rest);
    SplitNoSeparator(head, ':');
  }

  /** An identifier without ':' is a single piece: a known name is its own type. */
  lemma TypeOfBareName()
    ensures Type("line") == "line"
    ensures Type("foo") == ""
    ensures Type("") == ""
  {
    SplitNoSeparator("line", ':');
    SplitNoSeparator("foo", ':');
  }

  /** Only the first piece is looked up: a known name further on is ignored. */
  lemma TypeIgnoresLaterName()
    ensures Type("x:line") == ""
  {
    var head, rest := "x", "line";
    assert head + [':'] + rest == "x:line";
    TypeIgnoresRest(head, rest);
    SplitNoSeparator(head, ':');
  }
}
