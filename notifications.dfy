/**
  The parts of the notification framework the app's handlers touch: the
  response to a tapped action, registered actions and categories, and a
  request to post a notification.
*/
module Notifications {
  import opened Wrappers

  /** A tapped action; `userText` is present exactly when the action took text input. */
  datatype Response = Response(actionIdentifier: string, userText: Option<string>)

  datatype Action = Action(identifier: string, title: string, destructive: bool, textInput: bool)

  datatype Category = Category(identifier: string, actions: seq<Action>)

  /** A notification to post: its identifier, its category, and no trigger (deliver now) when `delay` is none. */
  datatype Request = Request(identifier: string, title: string, body: string, category: string, delay: Option<real>)

  /** The identifiers of a category's actions. */
  function ActionIds(c: Category): (ids: set<string>)
    ensures forall i :: 0 <= i < |c.actions| ==> c.actions[i].identifier in ids
    ensures forall id :: id in ids ==> exists i :: 0 <= i < |c.actions| && c.actions[i].identifier == id
  {
    set i | 0 <= i < |c.actions| :: c.actions[i].identifier
  }

}
