/** The entries of the conversation log kept in session state: `{"role": ..., "content": ...}`. */
module Turns {

  /** The three roles the page ever writes into the log. */
  datatype Role = System | User | Assistant

  datatype Turn = Turn(role: Role, content: string)

  /** The log's shape on every run: the persona prompt as a system turn at index 0, and no other
      system turn anywhere. */
  predicate WellFormed(log: seq<Turn>) {
    |log| > 0 && log[0].role == System &&
    forall k :: 1 <= k < |log| ==> log[k].role != System
  }

  /** The turns the chat history shows: every non-system turn, in log order. */
  function Visible(log: seq<Turn>): (r: seq<Turn>)
    ensures |r| <= |log|
    ensures forall k :: 0 <= k < |r| ==> r[k].role != System && r[k] in log
  {
    if log == [] then []
    else
      var last := log[|log| - 1];
      Visible(log[..|log| - 1]) + (if last.role == System then [] else [last])
  }

  /** Adding a turn at the end adds it to the shown history exactly when it is not a system turn. */
  lemma VisibleSnoc(log: seq<Turn>, t: Turn)
    ensures Visible(log + [t]) == Visible(log) + (if t.role == System then [] else [t])
  {
    assert (log + [t])[..|log|] == log;
  }

  /** A turn is shown exactly when it occurs in the log with a role other than system. */
  lemma {:induction false} VisibleMembers(log: seq<Turn>, t: Turn)
    ensures t in Visible(log) <==> t in log && t.role != System
  {
    if log != [] {
      var init := log[..|log| - 1];
      VisibleMembers(init, t);
      assert log == init + [log[|log| - 1]];
    }
  }

  /** On a well-formed log the history shows exactly the turns after index 0, in order. */
  lemma {:induction false} VisibleOfWellFormed(log: seq<Turn>)
    requires WellFormed(log)
    ensures Visible(log) == log[1..]
  {
    if |log| > 1 {
      var init := log[..|log| - 1];
      assert WellFormed(init);
      VisibleOfWellFormed(init);
      assert log[1..] == init[1..] + [log[|log| - 1]];
    }
  }

  /** Appending a user or assistant turn keeps the single system turn at index 0. */
  lemma AppendKeepsWellFormed(log: seq<Turn>, t: Turn)
    requires WellFormed(log) && t.role != System
    ensures WellFormed(log + [t]) && (log + [t])[0] == log[0]
  {
  }
}
