/**
 * Assigns the fields of a config instance: every declared field that carries a value-extractor
 * annotation gets the value extracted for it, in the order reflection lists the fields; the first failure stops
 * the loop.
 *
 * Two steps are outside this model and are parameters: `extractValue`, the field value
 * extractor (it may throw), and `setFailure`, the exception that reflection's `Field.set`
 * raises for a field and a value, if any.
 */
module FieldSetter {
  import opened Wrappers
  import opened Annotation
  import opened ConfigObject
  import opened Configuration

  /**
   * What setting the fields leaves behind: the instance's field values, the exception thrown
   * (`None` when none), and the fields extraction was invoked for, in order.
   */
  datatype Outcome = Outcome(values: FieldValues, error: Option<Exception>, extracted: seq<Field>)

  /** The outcome of `o` preceded by extractions for `prefix`. */
  function After(prefix: seq<Field>, o: Outcome): Outcome {
    o.(extracted := prefix + o.extracted)
  }

  /** The `ConfigBuilderException` that wraps a failed assignment of `value` to `field`. */
  function AssignmentError(field: Field, value: Value, cause: Exception): Exception {
    ConfigBuilderException(field.name, field.typeName, ValueText(value), cause)
  }

  /** The fields carrying a value-extractor annotation, in the order they are listed. */
  function Annotated(fields: seq<Field>): seq<Field> {
    if fields == [] then []
    else (if fields[0].HasValueExtractor() then [fields[0]] else []) + Annotated(fields[1..])
  }

  /** Whether some annotated field of `fields` is called `name`. */
  predicate AssignsName(fields: seq<Field>, name: string) {
    exists j :: 0 <= j < |fields| && fields[j].HasValueExtractor() && fields[j].name == name
  }

  /** The fields loop of `setFields`, starting from the field values `values`. */
  function SetFieldsFrom(
    fields: seq<Field>, values: FieldValues, configuration: ConfigState,
    extractValue: (Field, ConfigState) -> Result<Value, Exception>,
    setFailure: (Field, Value) -> Option<Exception>): Outcome
    decreases |fields|
  {
    if fields == [] then Outcome(values, None, [])
    else
      var field := fields[0];
      if !field.HasValueExtractor() then SetFieldsFrom(fields[1..], values, configuration, extractValue, setFailure)
      else
        match extractValue(field, configuration)
        case Failure(e) => Outcome(values, Some(e), [field])
        case Success(v) =>
          match setFailure(field, v)
          case Some(e) => Outcome(values, Some(AssignmentError(field, v, e)), [field])
          case None => After([field], SetFieldsFrom(fields[1..], values[field.name := v], configuration, extractValue, setFailure))
  }

  /**
   * Running the loop over `fields` is running it over the first `k` fields and, only if that
   * threw nothing, over the rest from where it left off. So a failure among the first `k`
   * fields is the outcome of the whole loop: later fields are not processed.
   */
  lemma {:induction false} SetFieldsSplit(
    fields: seq<Field>, k: nat, values: FieldValues, configuration: ConfigState,
    extractValue: (Field, ConfigState) -> Result<Value, Exception>,
    setFailure: (Field, Value) -> Option<Exception>)
    requires k <= |fields|
    ensures var p := SetFieldsFrom(fields[..k], values, configuration, extractValue, setFailure);
            SetFieldsFrom(fields, values, configuration, extractValue, setFailure)
            == if p.error.Some? then p
               else After(p.extracted, SetFieldsFrom(fields[k..], p.values, configuration, extractValue, setFailure))
  {
    if k == 0 {
      assert fields[..0] == [];
      assert fields[0..] == fields;
      var o := SetFieldsFrom(fields, values, configuration, extractValue, setFailure);
      assert After([], o) == o by { assert [] + o.extracted == o.extracted; }
    } else {
      var field := fields[0];
      assert fields[..k][0] == field;
      assert fields[..k][1..] == fields[1..][..k - 1];
      assert fields[1..][k - 1..] == fields[k..];
      if !field.HasValueExtractor() {
        SetFieldsSplit(fields[1..], k - 1, values, configuration, extractValue, setFailure);
      } else if extractValue(field, configuration).Success? {
        var v := extractValue(field, configuration).value;
        if setFailure(field, v).None? {
          SetFieldsSplit(fields[1..], k - 1, values[field.name := v], configuration, extractValue, setFailure);
          var p := SetFieldsFrom(fields[1..][..k - 1], values[field.name := v], configuration, extractValue, setFailure);
          if p.error.None? {
            var rest := SetFieldsFrom(fields[k..], p.values, configuration, extractValue, setFailure);
            assert [field] + (p.extracted + rest.extracted) == ([field] + p.extracted) + rest.extracted;
          }
        }
      }
    }
  }

  /**
   * Fail-fast: when the fields before `k` are all set and the annotated field `k` fails, the
   * loop throws that failure (the extractor's exception as it is, a failed assignment wrapped
   * in a `ConfigBuilderException` naming the field, its type and the value's text), keeps the
   * values set so far, and extracts nothing after field `k`.
   */
  lemma {:induction false} FailFast(
    fields: seq<Field>, k: nat, values: FieldValues, configuration: ConfigState,
    extractValue: (Field, ConfigState) -> Result<Value, Exception>,
    setFailure: (Field, Value) -> Option<Exception>)
    requires k < |fields| && fields[k].HasValueExtractor()
    requires SetFieldsFrom(fields[..k], values, configuration, extractValue, setFailure).error.None?
    requires var x := extractValue(fields[k], configuration); x.Failure? || setFailure(fields[k], x.value).Some?
    ensures var p := SetFieldsFrom(fields[..k], values, configuration, extractValue, setFailure);
            var x := extractValue(fields[k], configuration);
            var e := if x.Failure? then x.error
                     else ConfigBuilderException(fields[k].name, fields[k].typeName,
                                                 if x.value.Null? then "null" else x.value.text,
                                                 setFailure(fields[k], x.value).value);
            SetFieldsFrom(fields, values, configuration, extractValue, setFailure)
            == Outcome(p.values, Some(e), p.extracted + [fields[k]])
  {
    SetFieldsSplit(fields, k, values, configuration, extractValue, setFailure);
    assert fields[k..][0] == fields[k];
  }

  /** A field name no annotated field carries is left as it was, on success and on failure alike. */
  lemma {:induction false} UnassignedNamesKept(
    fields: seq<Field>, values: FieldValues, configuration: ConfigState,
    extractValue: (Field, ConfigState) -> Result<Value, Exception>,
    setFailure: (Field, Value) -> Option<Exception>, name: string)
    requires !AssignsName(fields, name)
    ensures var r := SetFieldsFrom(fields, values, configuration, extractValue, setFailure);
            (name in r.values <==> name in values) && (name in values ==> r.values[name] == values[name])
    decreases |fields|
  {
    if fields != [] {
      var field := fields[0];
      assert !AssignsName(fields[1..], name) by {
        forall j | 0 <= j < |fields[1..]| && fields[1..][j].HasValueExtractor()
          ensures fields[1..][j].name != name
        {
          assert fields[1..][j] == fields[j + 1];
        }
      }
      if !field.HasValueExtractor() {
        UnassignedNamesKept(fields[1..], values, configuration, extractValue, setFailure, name);
      } else if extractValue(field, configuration).Success? {
        var v := extractValue(field, configuration).value;
        if setFailure(field, v).None? {
          assert field.name != name;
          UnassignedNamesKept(fields[1..], values[field.name := v], configuration, extractValue, setFailure, name);
        }
      }
    }
  }

  /**
   * When the loop throws nothing, every annotated field holds exactly the value extracted for
   * it, whatever it held before and even when that value is null.
   */
  lemma {:induction false} AnnotatedFieldsAssigned(
    fields: seq<Field>, values: FieldValues, configuration: ConfigState,
    extractValue: (Field, ConfigState) -> Result<Value, Exception>,
    setFailure: (Field, Value) -> Option<Exception>, i: nat)
    requires UniqueNames(fields)
    requires i < |fields| && fields[i].HasValueExtractor()
    requires SetFieldsFrom(fields, values, configuration, extractValue, setFailure).error.None?
    ensures var r := SetFieldsFrom(fields, values, configuration, extractValue, setFailure);
            var x := extractValue(fields[i], configuration);
            x.Success? && fields[i].name in r.values && r.values[fields[i].name] == x.value
    decreases |fields|
  {
    var field := fields[0];
    assert UniqueNames(fields[1..]) by {
      forall a, b | 0 <= a < b < |fields[1..]| ensures fields[1..][a].name != fields[1..][b].name {
        assert fields[1..][a] == fields[a + 1] && fields[1..][b] == fields[b + 1];
      }
    }
    if i == 0 {
      var v := extractValue(field, configuration).value;
      assert !AssignsName(fields[1..], field.name) by {
        forall j | 0 <= j < |fields[1..]| ensures fields[1..][j].name != field.name {
          assert fields[1..][j] == fields[j + 1];
        }
      }
      UnassignedNamesKept(fields[1..], values[field.name := v], configuration, extractValue, setFailure, field.name);
    } else {
      assert fields[1..][i - 1] == fields[i];
      if !field.HasValueExtractor() {
        AnnotatedFieldsAssigned(fields[1..], values, configuration, extractValue, setFailure, i - 1);
      } else {
        var v := extractValue(field, configuration).value;
        AnnotatedFieldsAssigned(fields[1..], values[field.name := v], configuration, extractValue, setFailure, i - 1);
      }
    }
  }

  /**
   * Extraction is invoked for annotated fields only, in the order the fields are listed, once each, and
   * stops at the first failure: the fields extracted are a prefix of the annotated fields, all
   * of them when nothing was thrown, and the failing field ends the prefix otherwise.
   */
  lemma {:induction false} ExtractionOrder(
    fields: seq<Field>, values: FieldValues, configuration: ConfigState,
    extractValue: (Field, ConfigState) -> Result<Value, Exception>,
    setFailure: (Field, Value) -> Option<Exception>)
    ensures var r := SetFieldsFrom(fields, values, configuration, extractValue, setFailure);
            && r.extracted <= Annotated(fields)
            && (r.error.None? ==> r.extracted == Annotated(fields))
            && (r.error.Some? ==> r.extracted != [])
    decreases |fields|
  {
    if fields != [] {
      var field := fields[0];
      if !field.HasValueExtractor() {
        ExtractionOrder(fields[1..], values, configuration, extractValue, setFailure);
      } else if extractValue(field, configuration).Success? {
        var v := extractValue(field, configuration).value;
        if setFailure(field, v).None? {
          ExtractionOrder(fields[1..], values[field.name := v], configuration, extractValue, setFailure);
        }
      }
    }
  }

  /**
   * `setField`: assigns `value` to `field` of the instance; if reflection throws, nothing is
   * assigned and the exception is wrapped in a `ConfigBuilderException`.
   */
  method SetField(instance: ConfigInstance, field: Field, value: Value, setFailure: (Field, Value) -> Option<Exception>)
    returns (error: Option<Exception>)
    modifies instance
    ensures setFailure(field, value).None? ==> error.None? && instance.values == old(instance.values)[field.name := value]
    ensures setFailure(field, value).Some? ==>
              error == Some(ConfigBuilderException(field.name, field.typeName, ValueText(value), setFailure(field, value).value))
              && instance.values == old(instance.values)
  {
    var thrown := setFailure(field, value);
    if thrown.Some? {
      return Some(AssignmentError(field, value, thrown.value));
    }
    instance.values := instance.values[field.name := value];
    return None;
  }

  /**
   * `setFields`: walks the declared fields of the instance's class, skipping those without a
   * value-extractor annotation, and assigns each other one the value extracted for it with the
   * given configuration.
   */
  method SetFields(
    instance: ConfigInstance, configuration: BuilderConfiguration,
    extractValue: (Field, ConfigState) -> Result<Value, Exception>,
    setFailure: (Field, Value) -> Option<Exception>)
    returns (error: Option<Exception>, ghost extracted: seq<Field>)
    modifies instance
    ensures Outcome(instance.values, error, extracted)
         == SetFieldsFrom(instance.configClass.fields, old(instance.values), configuration.State(), extractValue, setFailure)
  {
    var fields := instance.configClass.fields;
    ghost var goal := SetFieldsFrom(fields, instance.values, configuration.State(), extractValue, setFailure);
    ghost var state := configuration.State();
    error, extracted := None, [];
    for i := 0 to |fields|
      invariant goal == After(extracted, SetFieldsFrom(fields[i..], instance.values, configuration.State(), extractValue, setFailure))
      invariant configuration.State() == state
      invariant error.None?
    {
      var field := fields[i];
      assert fields[i..][0] == field && fields[i..][1..] == fields[i + 1..];
      if !field.HasValueExtractor() {
        continue;
      }
      var value := extractValue(field, configuration.State());
      if value.Failure? {
        assert goal == Outcome(instance.values, Some(value.error), extracted + [field]);
        error, extracted := Some(value.error), extracted + [field];
        return;
      }
      error := SetField(instance, field, value.value, setFailure);
      if error.Some? {
        assert goal == Outcome(instance.values, error, extracted + [field]);
        extracted := extracted + [field];
        return;
      }
      ghost var rest := SetFieldsFrom(fields[i + 1..], instance.values, configuration.State(), extractValue, setFailure);
      assert extracted + ([field] + rest.extracted) == (extracted + [field]) + rest.extracted;
      extracted := extracted + [field];
    }
    assert fields[|fields|..] == [];
    assert extracted + [] == extracted;
    assert goal == Outcome(instance.values, None, extracted);
  }

  /**
   * `setEmptyFields`, the merge-mode counterpart of `setFields`, is not part of this model:
   * `setEmptyFields` is that step as a function from the instance's class, its field values
   * and the configuration to the new field values and the exception thrown, if any.
   */
  method SetEmptyFields(
    instance: ConfigInstance, configuration: BuilderConfiguration,
    setEmptyFields: (ConfigClass, FieldValues, ConfigState) -> (FieldValues, Option<Exception>))
    returns (error: Option<Exception>)
    modifies instance
    ensures var m := setEmptyFields(instance.configClass, old(instance.values), configuration.State());
            instance.values == m.0 && error == m.1
  {
    var merged := setEmptyFields(instance.configClass, instance.values, configuration.State());
    instance.values := merged.0;
    error := merged.1;
  }
}
