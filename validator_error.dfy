/** Package util: turning the validator's per-field errors into the
    field -> message map that the user handlers send back. */
module Util {

  /** One failed validation: the struct field, the tag that failed and the
      tag's parameter (empty for tags without one). */
  datatype FieldError = FieldError(field: string, tag: string, param: string)

  /** The text for a failed tag: a fixed text for each known tag, the `min`
      tag's text carrying its parameter, "invalid value" for every other tag. */
  function TagMessage(tag: string, param: string): (m: string)
    ensures m == "invalid value" <==> tag !in {"required", "alphanum", "min", "email"}
    ensures tag == "required" ==> m == "is required"
    ensures tag == "alphanum" ==> m == "must be alphanumeric"
    ensures tag == "email" ==> m == "must be a valid email"
    ensures tag == "min" ==>
              && |m| == 28 + |param|
              && m[..17] == "must be at least "
              && m[17..17 + |param|] == param
              && m[17 + |param|..] == " characters"
  {
    if tag == "required" then "is required"
    else if tag == "alphanum" then "must be alphanumeric"
    else if tag == "min" then "must be at least " + param + " characters"
    else if tag == "email" then "must be a valid email"
    else "invalid value"
  }

  /** The message stored for one error: its field name, a space, the tag's text. */
  function FieldMessage(e: FieldError): string
  {
    e.field + " " + TagMessage(e.tag, e.param)
  }

  /** The fields the errors name. */
  function Fields(errs: seq<FieldError>): set<string>
  {
    set j | 0 <= j < |errs| :: errs[j].field
  }

  /** errs[i] is the last of the first n errors that names its field. */
  ghost predicate LastBefore(errs: seq<FieldError>, n: int, i: int)
    requires 0 <= i < n <= |errs|
  {
    forall j :: i < j < n ==> errs[j].field != errs[i].field
  }

  /** errs[i] is the last error in the list that names its field. */
  ghost predicate IsLastForField(errs: seq<FieldError>, i: int)
    requires 0 <= i < |errs|
  {
    LastBefore(errs, |errs|, i)
  }

  /** The map the fold holds after the first n errors: each error in list
      order overwrites the entry of its field. */
  function MessageMapUpTo(errs: seq<FieldError>, n: nat): map<string, string>
    requires n <= |errs|
  {
    if n == 0 then map[]
    else MessageMapUpTo(errs, n - 1)[errs[n - 1].field := FieldMessage(errs[n - 1])]
  }

  /** The map the fold builds from the whole list. */
  function MessageMap(errs: seq<FieldError>): map<string, string>
  {
    MessageMapUpTo(errs, |errs|)
  }

  lemma {:induction false} UpToKeys(errs: seq<FieldError>, n: nat)
    requires n <= |errs|
    ensures MessageMapUpTo(errs, n).Keys == set j | 0 <= j < n :: errs[j].field
  {
    if n > 0 {
      UpToKeys(errs, n - 1);
      var before := set j | 0 <= j < n - 1 :: errs[j].field;
      assert (set j | 0 <= j < n :: errs[j].field) == before + {errs[n - 1].field};
    }
  }

  lemma {:induction false} UpToLastWins(errs: seq<FieldError>, n: nat, i: int)
    requires 0 <= i < n <= |errs| && LastBefore(errs, n, i)
    ensures errs[i].field in MessageMapUpTo(errs, n)
    ensures MessageMapUpTo(errs, n)[errs[i].field] == FieldMessage(errs[i])
  {
    if i < n - 1 {
      assert LastBefore(errs, n - 1, i);
      UpToLastWins(errs, n - 1, i);
    }
  }

  lemma {:induction false} UpToValuesFromList(errs: seq<FieldError>, n: nat, k: string)
    requires n <= |errs| && k in MessageMapUpTo(errs, n)
    ensures exists i :: 0 <= i < n && errs[i].field == k && MessageMapUpTo(errs, n)[k] == FieldMessage(errs[i])
  {
    if errs[n - 1].field != k {
      UpToValuesFromList(errs, n - 1, k);
    }
  }

  lemma {:induction false} UpToSize(errs: seq<FieldError>, n: nat)
    requires n <= |errs|
    ensures |MessageMapUpTo(errs, n)| <= n
  {
    if n > 0 {
      UpToSize(errs, n - 1);
      var m := MessageMapUpTo(errs, n - 1);
      if errs[n - 1].field in m {
        assert m[errs[n - 1].field := FieldMessage(errs[n - 1])].Keys == m.Keys;
      } else {
        assert m[errs[n - 1].field := FieldMessage(errs[n - 1])].Keys == m.Keys + {errs[n - 1].field};
      }
    }
  }

  /** The key set of the map is the set of fields the errors name. */
  lemma MessageMapKeys(errs: seq<FieldError>)
    ensures MessageMap(errs).Keys == Fields(errs)
  {
    UpToKeys(errs, |errs|);
  }

  /** The entry of a field is the message of the last error naming it. */
  lemma MessageMapLastWins(errs: seq<FieldError>, i: int)
    requires 0 <= i < |errs| && IsLastForField(errs, i)
    ensures errs[i].field in MessageMap(errs)
    ensures MessageMap(errs)[errs[i].field] == FieldMessage(errs[i])
  {
    UpToLastWins(errs, |errs|, i);
  }

  /** Every value is some listed error's message, for an error naming that key. */
  lemma MessageMapValuesFromList(errs: seq<FieldError>, k: string)
    requires k in MessageMap(errs)
    ensures exists i :: 0 <= i < |errs| && errs[i].field == k && MessageMap(errs)[k] == FieldMessage(errs[i])
  {
    UpToValuesFromList(errs, |errs|, k);
  }

  /** The map never has more entries than the list has errors. */
  lemma MessageMapSize(errs: seq<FieldError>)
    ensures |MessageMap(errs)| <= |errs|
  {
    UpToSize(errs, |errs|);
  }

  /** ValidatorError: folds the errors into a fresh map in list order. */
  method ValidatorError(errs: seq<FieldError>) returns (out: map<string, string>)
    ensures out == MessageMap(errs)
    ensures out.Keys == Fields(errs) && |out| <= |errs|
    ensures errs == [] ==> out == map[]
    ensures forall i :: 0 <= i < |errs| && IsLastForField(errs, i) ==>
              errs[i].field in out && out[errs[i].field] == FieldMessage(errs[i])
  {
    out := map[];
    for i := 0 to |errs|
      invariant out == MessageMapUpTo(errs, i)
    {
      var e := errs[i];
      var msg := "";
      if e.tag == "required" {
        msg := "is required";
      } else if e.tag == "alphanum" {
        msg := "must be alphanumeric";
      } else if e.tag == "min" {
        msg := "must be at least " + e.param + " characters";
      } else if e.tag == "email" {
        msg := "must be a valid email";
      } else {
        msg := "invalid value";
      }
      out := out[e.field := e.field + " " + msg];
    }
    MessageMapKeys(errs);
    MessageMapSize(errs);
    forall i | 0 <= i < |errs| && IsLastForField(errs, i)
      ensures errs[i].field in out && out[errs[i].field] == FieldMessage(errs[i])
    {
      MessageMapLastWins(errs, i);
    }
  }
}
