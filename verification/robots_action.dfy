/**
 * The closed enumeration of `command:robots` actions, with the console
 * token each one is spelled as and the membership test dispatch uses.
 */
module RobotsActionEnum {
  import opened Common

  datatype Action = Create | Remove

  /** `RobotsAction::CREATE` and `RobotsAction::REMOVE`. */
  function Token(a: Action): (t: string)
    ensures t in Tokens
  {
    match a
    case Create => "create"
    case Remove => "remove"
  }

  /** Every value of the enumeration. */
  const Tokens: set<string> := {"create", "remove"}

  /** `RobotsAction::includes($value)`: membership among the enumeration's values. */
  predicate Includes(s: string) {
    s in Tokens
  }

  /** The action a token stands for, if any. */
  function Parse(s: string): (r: Option<Action>)
    ensures r.Some? <==> Includes(s)
    ensures r.Some? ==> Token(r.value) == s
  {
    if s == "create" then Some(Create)
    else if s == "remove" then Some(Remove)
    else None
  }

  /** Parsing a token gives back its action, so the two tokens are distinct. */
  lemma ParseToken(a: Action)
    ensures Parse(Token(a)) == Some(a)
    ensures Includes(Token(a))
  {
  }

  /** A string is an enumeration value exactly when it is the token of an action. */
  lemma TokensAreExactlyTheActions()
    ensures forall s :: Includes(s) <==> exists a: Action :: Token(a) == s
    ensures Token(Create) != Token(Remove)
  {
    forall s ensures Includes(s) <==> exists a: Action :: Token(a) == s {
      if s == "create" {
        assert Token(Create) == s;
      } else if s == "remove" {
        assert Token(Remove) == s;
      }
    }
  }
}
