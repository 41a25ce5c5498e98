/**
 Query-string parameters as the request handler sees them.

 The query parser hands each parameter over as nothing, a single string, or a
 list of strings (when the name was repeated). The handler flattens every one
 of them the same way: a list contributes its first element, and JavaScript
 truthiness then decides whether the value is usable.
 */
module Params {

  datatype Option<+T> = None | Some(value: T)

  /** A query parameter: not supplied, supplied once, or supplied as a list. */
  datatype Param = Absent | One(value: string) | Many(values: seq<string>)

  /** The parsed query: parameter name to its raw value. */
  type Query = map<string, Param>

  /** The first value of a parameter; `None` plays the part of `undefined`,
      which is also what indexing an empty list yields. */
  function First(p: Param): (r: Option<string>)
    ensures r.Some? <==> p.One? || (p.Many? && |p.values| > 0)
    ensures p.One? ==> r == Some(p.value)
    ensures p.Many? && |p.values| > 0 ==> r == Some(p.values[0])
  {
    match p
    case Absent => None
    case One(s) => Some(s)
    case Many(xs) => if |xs| > 0 then Some(xs[0]) else None
  }

  /** The shape the query parser gives a name that occurs `occurrences`
      times in the query string, in the order written: nothing, one string,
      or the list of all of them. */
  function Received(occurrences: seq<string>): (p: Param)
    ensures |occurrences| == 0 <==> p.Absent?
  {
    if |occurrences| == 0 then Absent
    else if |occurrences| == 1 then One(occurrences[0])
    else Many(occurrences)
  }

  /** Repeating a parameter is not an error: the first occurrence is the one
      used, and whatever follows it is ignored. */
  lemma FirstOccurrenceWins(occurrences: seq<string>, later: seq<string>)
    ensures First(Received(occurrences)) ==
              (if |occurrences| == 0 then None else Some(occurrences[0]))
    ensures |occurrences| > 0 ==>
              First(Received(occurrences + later)) == First(Received(occurrences))
  {
    if |occurrences| > 0 {
      assert (occurrences + later)[0] == occurrences[0];
    }
  }

  /** The first value of the parameter called `name`; a name the query does
      not mention reads as absent. */
  function Arg(q: Query, name: string): (r: Option<string>)
    ensures name !in q ==> r.None?
    ensures name in q ==> r == First(q[name])
  {
    First(if name in q then q[name] else Absent)
  }

  /** JavaScript truthiness of a `string | undefined`: both `undefined` and
      the empty string are falsy. */
  function Truthy(o: Option<string>): (b: bool)
    ensures b <==> o != None && o != Some("")
  {
    o.Some? && o.value != ""
  }

  /** The `value || ''` idiom. For strings it is the same as defaulting an
      absent value to the empty string, because `'' || ''` is `''` too. */
  function OrEmpty(o: Option<string>): (s: string)
    ensures s == (if o.Some? then o.value else "")
  {
    if Truthy(o) then o.value else ""
  }
}
