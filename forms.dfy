/**
 * The required-field rule the three form validators share: a chain of
 * `if (!data.k) errors.k = message`, one step per field, in order.
 */
module Forms {
  import opened JsValues

  /** A required field and the message shown when it is left empty. */
  datatype Rule = Rule(key: string, message: string)

  predicate DistinctKeys(rules: seq<Rule>) {
    forall i, j :: 0 <= i < j < |rules| ==> rules[i].key != rules[j].key
  }

  /** One step: `if (!data[r.key]) errors[r.key] = r.message`. */
  function Require(data: Record, errors: map<string, string>, r: Rule): map<string, string> {
    if Truthy(Get(data, r.key)) then errors else errors[r.key := r.message]
  }

  /** The steps for `rules[i..]`, in order, starting from `errors`. */
  function RequireFrom(data: Record, errors: map<string, string>, rules: seq<Rule>, i: nat): map<string, string>
    decreases |rules| - i
  {
    if i >= |rules| then errors else RequireFrom(data, Require(data, errors, rules[i]), rules, i + 1)
  }

  /** The error object a validator starting from `{}` returns. */
  function MissingFields(data: Record, rules: seq<Rule>): map<string, string> {
    RequireFrom(data, map[], rules, 0)
  }

  /** `if (!data[key]) errors[key] = message`: one line of a validator. */
  method CheckRequired(data: Record, errors: map<string, string>, key: string, message: string) returns (e: map<string, string>)
    ensures e == Require(data, errors, Rule(key, message))
    ensures Truthy(Get(data, key)) ==> e == errors
    ensures !Truthy(Get(data, key)) ==> e.Keys == errors.Keys + {key} && e[key] == message
  {
    e := errors;
    if !Truthy(Get(data, key)) {
      e := e[key := message];
    }
  }

  /** The keys that come out are the ones that went in plus exactly the empty required fields. */
  lemma {:induction false} RequireFromKeys(data: Record, errors: map<string, string>, rules: seq<Rule>, i: nat, k: string)
    ensures k in RequireFrom(data, errors, rules, i)
            <==> k in errors || exists j :: i <= j < |rules| && rules[j].key == k && !Truthy(Get(data, k))
    decreases |rules| - i
  {
    if i < |rules| {
      RequireFromKeys(data, Require(data, errors, rules[i]), rules, i + 1, k);
    }
  }

  /** A step never removes a key nor changes an entry for a key no later rule names. */
  lemma {:induction false} RequireFromKeeps(data: Record, errors: map<string, string>, rules: seq<Rule>, i: nat, k: string)
    requires k in errors
    requires forall j :: i <= j < |rules| ==> rules[j].key != k
    ensures k in RequireFrom(data, errors, rules, i) && RequireFrom(data, errors, rules, i)[k] == errors[k]
    decreases |rules| - i
  {
    if i < |rules| {
      RequireFromKeeps(data, Require(data, errors, rules[i]), rules, i + 1, k);
    }
  }

  /** With distinct keys, an empty field's entry is its own rule's message. */
  lemma {:induction false} RequireFromMessage(data: Record, errors: map<string, string>, rules: seq<Rule>, i: nat, j: nat)
    requires DistinctKeys(rules)
    requires i <= j < |rules| && !Truthy(Get(data, rules[j].key))
    ensures rules[j].key in RequireFrom(data, errors, rules, i)
    ensures RequireFrom(data, errors, rules, i)[rules[j].key] == rules[j].message
    decreases |rules| - i
  {
    if i == j {
      RequireFromKeeps(data, Require(data, errors, rules[i]), rules, i + 1, rules[j].key);
    } else {
      RequireFromMessage(data, Require(data, errors, rules[i]), rules, i + 1, j);
    }
  }

  /**
   * The validator reports field `k` exactly when `k` is a required field left
   * empty, always with that field's message.
   */
  lemma MissingFieldsExact(data: Record, rules: seq<Rule>, k: string)
    requires DistinctKeys(rules)
    ensures k in MissingFields(data, rules) <==> (exists j :: 0 <= j < |rules| && rules[j].key == k) && !Truthy(Get(data, k))
    ensures forall j :: 0 <= j < |rules| && rules[j].key == k && !Truthy(Get(data, k))
                        ==> MissingFields(data, rules)[k] == rules[j].message
  {
    RequireFromKeys(data, map[], rules, 0, k);
    forall j | 0 <= j < |rules| && rules[j].key == k && !Truthy(Get(data, k))
      ensures MissingFields(data, rules)[k] == rules[j].message
    {
      RequireFromMessage(data, map[], rules, 0, j);
    }
  }

  /** No error exactly when every required field is filled in. */
  lemma NoMissingFieldsIff(data: Record, rules: seq<Rule>)
    ensures MissingFields(data, rules) == map[] <==> forall j :: 0 <= j < |rules| ==> Truthy(Get(data, rules[j].key))
  {
    if exists j :: 0 <= j < |rules| && !Truthy(Get(data, rules[j].key)) {
      var j :| 0 <= j < |rules| && !Truthy(Get(data, rules[j].key));
      RequireFromKeys(data, map[], rules, 0, rules[j].key);
    } else if MissingFields(data, rules) != map[] {
      var k :| k in MissingFields(data, rules);
      RequireFromKeys(data, map[], rules, 0, k);
    }
  }
}
