/** The "collect every missing field" discipline shared by the handlers: each
    required field whose value is falsy contributes "<name> is required", in
    the order the fields are checked. */
module Validation {
  import opened JsValue

  function Required(name: string): string {
    name + " is required"
  }

  /** The message for every falsy field among `names`, in the order of `names`. */
  function MissingFields(fields: map<string, Value>, names: seq<string>): (errs: seq<string>)
    ensures |errs| <= |names|
  {
    if names == [] then []
    else (if Truthy(Field(fields, names[0])) then [] else [Required(names[0])])
         + MissingFields(fields, names[1..])
  }

  lemma {:induction false} MissingFieldsAppend(fields: map<string, Value>, a: seq<string>, b: seq<string>)
    ensures MissingFields(fields, a + b) == MissingFields(fields, a) + MissingFields(fields, b)
  {
    if a != [] {
      assert (a + b)[0] == a[0] && (a + b)[1..] == a[1..] + b;
      MissingFieldsAppend(fields, a[1..], b);
      var head := if Truthy(Field(fields, a[0])) then [] else [Required(a[0])];
      calc {
        MissingFields(fields, a + b);
        head + MissingFields(fields, a[1..] + b);
        head + (MissingFields(fields, a[1..]) + MissingFields(fields, b));
        (head + MissingFields(fields, a[1..])) + MissingFields(fields, b);
        MissingFields(fields, a) + MissingFields(fields, b);
      }
    } else {
      assert a + b == b;
    }
  }

  /** Checking one more field appends at most its own message: the list is built
      the way the handlers build it, one `push` per falsy field. */
  lemma MissingFieldsPush(fields: map<string, Value>, names: seq<string>, k: nat)
    requires k < |names|
    ensures MissingFields(fields, names[..k + 1]) ==
      MissingFields(fields, names[..k]) + (if Truthy(Field(fields, names[k])) then [] else [Required(names[k])])
  {
    assert names[..k + 1] == names[..k] + [names[k]];
    MissingFieldsAppend(fields, names[..k], [names[k]]);
  }

  /** `if (!value) errors.push("<name> is required")` */
  method PushIfMissing(errors: seq<string>, value: Value, name: string) returns (errors': seq<string>)
    ensures errors' == errors + (if Truthy(value) then [] else [Required(name)])
  {
    errors' := errors;
    if !Truthy(value) {
      errors' := errors' + [name + " is required"];
    }
  }

  /** The message of every field in `names`, whatever the values. */
  function AllRequired(names: seq<string>): (msgs: seq<string>)
    ensures |msgs| == |names|
    ensures forall i :: 0 <= i < |names| ==> msgs[i] == Required(names[i])
  {
    if names == [] then [] else [Required(names[0])] + AllRequired(names[1..])
  }

  /** `xs` is `ys` with some elements left out, the rest in their order. */
  predicate IsSubsequence(xs: seq<string>, ys: seq<string>)
    decreases |ys|
  {
    if ys == [] then xs == []
    else (xs != [] && xs[0] == ys[0] && IsSubsequence(xs[1..], ys[1..])) || IsSubsequence(xs, ys[1..])
  }

  lemma RequiredInjective(a: string, b: string)
    requires Required(a) == Required(b)
    ensures a == b
  {
    assert a == Required(a)[..|a|];
    assert b == Required(b)[..|b|];
  }

  /** A field's message is reported exactly when that field is falsy. */
  lemma {:induction false} MissingFieldsMember(fields: map<string, Value>, names: seq<string>, name: string)
    requires name in names
    ensures Required(name) in MissingFields(fields, names) <==> !Truthy(Field(fields, name))
  {
    var rest := MissingFields(fields, names[1..]);
    if names[0] == name {
      if name in names[1..] {
        MissingFieldsMember(fields, names[1..], name);
      } else {
        MissingFieldsOnlyNames(fields, names[1..]);
        if Required(name) in rest {
          var n :| n in names[1..] && Required(name) == Required(n);
          RequiredInjective(name, n);
        }
      }
    } else {
      if Required(name) == Required(names[0]) {
        RequiredInjective(name, names[0]);
      }
      MissingFieldsMember(fields, names[1..], name);
    }
  }

  /** Every reported message names a falsy field of `names`. */
  lemma {:induction false} MissingFieldsOnlyNames(fields: map<string, Value>, names: seq<string>)
    ensures forall m :: m in MissingFields(fields, names) ==>
      exists n :: n in names && m == Required(n) && !Truthy(Field(fields, n))
  {
    if names != [] {
      MissingFieldsOnlyNames(fields, names[1..]);
      forall m | m in MissingFields(fields, names)
        ensures exists n :: n in names && m == Required(n) && !Truthy(Field(fields, n))
      {
        if m in MissingFields(fields, names[1..]) {
          var n :| n in names[1..] && m == Required(n) && !Truthy(Field(fields, n));
          assert n in names;
        } else {
          assert m == Required(names[0]) && !Truthy(Field(fields, names[0]));
        }
      }
    }
  }

  /** No messages at all exactly when every field is truthy. */
  lemma {:induction false} MissingFieldsEmpty(fields: map<string, Value>, names: seq<string>)
    ensures MissingFields(fields, names) == [] <==> forall n :: n in names ==> Truthy(Field(fields, n))
  {
    if names != [] {
      MissingFieldsEmpty(fields, names[1..]);
      assert forall n :: n in names <==> n == names[0] || n in names[1..];
    }
  }

  /** The messages come in the order the fields are checked. */
  lemma {:induction false} MissingFieldsOrdered(fields: map<string, Value>, names: seq<string>)
    ensures IsSubsequence(MissingFields(fields, names), AllRequired(names))
  {
    if names != [] {
      MissingFieldsOrdered(fields, names[1..]);
      var all := AllRequired(names);
      assert all[1..] == AllRequired(names[1..]);
      if !Truthy(Field(fields, names[0])) {
        var errs := MissingFields(fields, names);
        assert errs[0] == all[0] && errs[1..] == MissingFields(fields, names[1..]);
      } else {
        assert MissingFields(fields, names) == MissingFields(fields, names[1..]);
      }
    }
  }

  /** When every field is falsy, every message is reported, in order. */
  lemma {:induction false} MissingFieldsAll(fields: map<string, Value>, names: seq<string>)
    requires forall n :: n in names ==> !Truthy(Field(fields, n))
    ensures MissingFields(fields, names) == AllRequired(names)
  {
    if names != [] {
      MissingFieldsAll(fields, names[1..]);
    }
  }
}
