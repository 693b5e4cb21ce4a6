/**
 * The vocabulary of human-approved AI suggestions (lib/ai-actions.ts): the four
 * action types and the whitelist of task fields a suggestion may change.
 */
module AiActions {
  import opened Common

  datatype ActionType = ChangePriority | RescheduleTask | ChangeStatus | SuggestBreakdown

  function ActionName(a: ActionType): string {
    match a
    case ChangePriority => "CHANGE_PRIORITY"
    case RescheduleTask => "RESCHEDULE_TASK"
    case ChangeStatus => "CHANGE_STATUS"
    case SuggestBreakdown => "SUGGEST_BREAKDOWN"
  }

  /** `AI_ACTION_TYPES`, in declaration order. */
  const ActionTypes: seq<string> := ["CHANGE_PRIORITY", "RESCHEDULE_TASK", "CHANGE_STATUS", "SUGGEST_BREAKDOWN"]

  /** `isAIActionType`: membership in the list. */
  predicate IsActionType(s: string) {
    s in ActionTypes
  }

  /** Reading an action type: the type whose name the string is, if any. */
  function ParseActionType(s: string): (r: Option<ActionType>)
    ensures r.Some? ==> ActionName(r.value) == s
    ensures r.None? ==> forall a: ActionType :: ActionName(a) != s
  {
    if s == "CHANGE_PRIORITY" then Some(ChangePriority)
    else if s == "RESCHEDULE_TASK" then Some(RescheduleTask)
    else if s == "CHANGE_STATUS" then Some(ChangeStatus)
    else if s == "SUGGEST_BREAKDOWN" then Some(SuggestBreakdown)
    else None
  }

  /** The membership test accepts exactly the names of the four action types. */
  lemma IsActionTypeExactly(s: string)
    ensures IsActionType(s) <==> exists a: ActionType :: ActionName(a) == s
  {
    if IsActionType(s) {
      assert ActionName(ParseActionType(s).value) == s;
    }
  }

  /** `ALLOWED_TASK_UPDATE_KEYS`, in declaration order. */
  const AllowedKeys: seq<string> := ["title", "description", "status", "priority", "category", "dueDate", "tags"]

  /** What `sanitizeSuggestedChange` returns: the whitelisted keys whose value is defined. */
  function Sanitized(raw: map<string, Value>): map<string, Value> {
    map k | k in raw && k in AllowedKeys && raw[k] != Undefined :: raw[k]
  }

  /** `sanitizeSuggestedChange`: a fresh `out` filled by one pass over the whitelist. */
  method SanitizeSuggestedChange(raw: map<string, Value>) returns (out: map<string, Value>)
    ensures out == Sanitized(raw)
  {
    out := map[];
    for i := 0 to |AllowedKeys|
      invariant out == map k | k in raw && k in AllowedKeys[..i] && raw[k] != Undefined :: raw[k]
    {
      var key := AllowedKeys[i];
      assert AllowedKeys[..i + 1] == AllowedKeys[..i] + [key];
      if Get(raw, key) != Undefined {
        out := out[key := raw[key]];
      }
    }
    assert AllowedKeys[..|AllowedKeys|] == AllowedKeys;
  }

  /** Every key of the result is whitelisted, and a key is kept, with its value unchanged,
      exactly when it is whitelisted and its raw value is defined. */
  lemma SanitizedKeys(raw: map<string, Value>)
    ensures forall k :: k in Sanitized(raw) ==> k in AllowedKeys
    ensures forall k :: k in Sanitized(raw) <==> k in AllowedKeys && Get(raw, k) != Undefined
    ensures forall k :: k in Sanitized(raw) ==> Sanitized(raw)[k] == raw[k]
  {
  }

  /** Sanitising a sanitised change changes nothing. */
  lemma SanitizeIdempotent(raw: map<string, Value>)
    ensures Sanitized(Sanitized(raw)) == Sanitized(raw)
  {
  }

  /** A change with no whitelisted, defined key sanitises to the empty record. */
  lemma SanitizedEmpty(raw: map<string, Value>)
    ensures Sanitized(raw) == map[] <==> forall k :: k in AllowedKeys ==> Get(raw, k) == Undefined
  {
    if Sanitized(raw) == map[] {
      forall k | k in AllowedKeys
        ensures Get(raw, k) == Undefined
      {
        assert k !in Sanitized(raw);
      }
    }
  }
}
