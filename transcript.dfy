/**
 * The shape every conversation transcript keeps: turns of one part each,
 * from the user or the model, and function calls and function responses
 * in adjacent pairs that carry the same function name.
 */
module Transcript {
  import opened Wrappers
  import opened Genai

  predicate IsCallTurn(c: Content) {
    c.role == ModelRole && |c.parts| == 1 && c.parts[0].functionCall.Some?
  }

  predicate IsResponseTurn(c: Content) {
    c.role == UserRole && |c.parts| == 1 && c.parts[0].functionCall.None? && c.parts[0].functionResponse.Some?
  }

  predicate SinglePartTurn(c: Content) {
    (c.role == UserRole || c.role == ModelRole) && |c.parts| == 1
  }

  /** A plain turn: one part, neither a function call nor a function response. */
  predicate PlainTurn(c: Content) {
    SinglePartTurn(c) && c.parts[0].functionCall.None? && c.parts[0].functionResponse.None?
  }

  predicate WellFormed(conv: seq<Content>) {
    && (forall i :: 0 <= i < |conv| ==> SinglePartTurn(conv[i]))
    && (forall i :: 0 <= i < |conv| && IsCallTurn(conv[i]) ==>
          i + 1 < |conv| && IsResponseTurn(conv[i + 1])
          && conv[i + 1].parts[0].functionResponse.value.name == conv[i].parts[0].functionCall.value.name)
    && (forall i :: 0 <= i < |conv| && IsResponseTurn(conv[i]) ==> 0 < i && IsCallTurn(conv[i - 1]))
  }

  lemma TextTurnsArePlain(t: string)
    ensures PlainTurn(UserText(t)) && PlainTurn(ModelText(t))
  {
  }

  /** Appending a plain turn keeps the transcript well formed. */
  lemma AppendPlain(conv: seq<Content>, c: Content)
    requires WellFormed(conv) && PlainTurn(c)
    ensures WellFormed(conv + [c])
  {
    var n := conv + [c];
    forall i | 0 <= i < |n| ensures SinglePartTurn(n[i]) {
      if i < |conv| { assert n[i] == conv[i]; }
    }
    forall i | 0 <= i < |n| && IsCallTurn(n[i])
      ensures i + 1 < |n| && IsResponseTurn(n[i + 1])
        && n[i + 1].parts[0].functionResponse.value.name == n[i].parts[0].functionCall.value.name
    {
      assert i < |conv| && n[i] == conv[i];
      assert n[i + 1] == conv[i + 1];
    }
    forall i | 0 <= i < |n| && IsResponseTurn(n[i]) ensures 0 < i && IsCallTurn(n[i - 1]) {
      assert i < |conv| && n[i] == conv[i];
      assert n[i - 1] == conv[i - 1];
    }
  }

  /** Appending a function call together with its response keeps the transcript well formed. */
  lemma AppendExchange(conv: seq<Content>, fc: FunctionCall, result: Payload)
    requires WellFormed(conv)
    ensures WellFormed(conv + [CallTurn(fc), ResponseTurn(fc, result)])
  {
    var n := conv + [CallTurn(fc), ResponseTurn(fc, result)];
    var m := |conv|;
    assert n[m] == CallTurn(fc) && n[m + 1] == ResponseTurn(fc, result);
    forall i | 0 <= i < |n| ensures SinglePartTurn(n[i]) {
      if i < m { assert n[i] == conv[i]; }
    }
    forall i | 0 <= i < |n| && IsCallTurn(n[i])
      ensures i + 1 < |n| && IsResponseTurn(n[i + 1])
        && n[i + 1].parts[0].functionResponse.value.name == n[i].parts[0].functionCall.value.name
    {
      if i < m {
        assert n[i] == conv[i];
        assert n[i + 1] == conv[i + 1];
      }
    }
    forall i | 0 <= i < |n| && IsResponseTurn(n[i]) ensures 0 < i && IsCallTurn(n[i - 1]) {
      if i < m {
        assert n[i] == conv[i];
        assert n[i - 1] == conv[i - 1];
      }
    }
  }
}
