/**
 * Copying the backend-owned fields of a freshly imported object onto the
 * stored one (`update_pulled_fields`). Both objects are records from field
 * names to values; the stored record is saved only when some listed field
 * actually changed.
 */
module PulledFields {
  import opened Wrappers

  /** The record after the update, and whether it was written back. */
  datatype Pulled<V> = Pulled(record: map<string, V>, saved: bool)

  /** Reading a listed field that one of the two objects does not have. */
  datatype FieldError = MissingAttribute(field: string)

  predicate HasAll<V>(m: map<string, V>, fields: seq<string>)
  {
    forall i :: 0 <= i < |fields| ==> fields[i] in m
  }

  /** Some listed field holds a different value in the two records. */
  predicate AnyDiffers<V(==)>(instance: map<string, V>, imported: map<string, V>, fields: seq<string>)
    requires HasAll(instance, fields) && HasAll(imported, fields)
  {
    exists i :: 0 <= i < |fields| && instance[fields[i]] != imported[fields[i]]
  }

  /**
   * The fields are handled in order; the imported value is read first, then
   * the current one, and a field either object lacks stops the update.
   */
  function UpdatePulledFields<V(==)>(instance: map<string, V>, imported: map<string, V>, fields: seq<string>)
    : (r: Result<Pulled<V>, FieldError>)
    ensures r.Success? <==> HasAll(instance, fields) && HasAll(imported, fields)
    ensures r.Failure? ==> exists i :: 0 <= i < |fields| && fields[i] == r.error.field
                                       && (fields[i] !in instance || fields[i] !in imported)
    ensures r.Success? ==> r.value.record.Keys == instance.Keys
    ensures r.Success? ==> forall i :: 0 <= i < |fields| ==> r.value.record[fields[i]] == imported[fields[i]]
    ensures r.Success? ==> forall k :: k in instance && k !in fields ==> r.value.record[k] == instance[k]
    ensures r.Success? ==> (r.value.saved <==> AnyDiffers(instance, imported, fields))
    decreases |fields|
  {
    if fields == [] then Success(Pulled(instance, false))
    else
      var f := fields[0];
      if f !in imported || f !in instance then Failure(MissingAttribute(f))
      else
        var changed := instance[f] != imported[f];
        var next := if changed then instance[f := imported[f]] else instance;
        match UpdatePulledFields(next, imported, fields[1..])
        case Failure(e) => Failure(e)
        case Success(p) =>
          DiffersStep(instance, imported, fields);
          Success(Pulled(p.record, changed || p.saved))
  }

  /** Splitting off the first field: either it differs, or a later field differs after it is copied. */
  lemma DiffersStep<V>(instance: map<string, V>, imported: map<string, V>, fields: seq<string>)
    requires fields != [] && HasAll(instance, fields) && HasAll(imported, fields)
    ensures var f := fields[0];
            var next := if instance[f] != imported[f] then instance[f := imported[f]] else instance;
            HasAll(next, fields[1..]) && HasAll(imported, fields[1..])
            && (AnyDiffers(instance, imported, fields) <==> instance[f] != imported[f] || AnyDiffers(next, imported, fields[1..]))
  {
    var f := fields[0];
    var next := if instance[f] != imported[f] then instance[f := imported[f]] else instance;
    var rest := fields[1..];
    assert forall i :: 0 <= i < |rest| ==> rest[i] == fields[i + 1];
    if AnyDiffers(instance, imported, fields) && instance[f] == imported[f] {
      var i :| 0 <= i < |fields| && instance[fields[i]] != imported[fields[i]];
      assert next[rest[i - 1]] != imported[rest[i - 1]];
    }
    if AnyDiffers(next, imported, rest) {
      var i :| 0 <= i < |rest| && next[rest[i]] != imported[rest[i]];
      assert rest[i] == fields[i + 1];
    }
  }

  /** A second pull of the same imported object changes nothing and saves nothing. */
  lemma PullIsIdempotent<V>(instance: map<string, V>, imported: map<string, V>, fields: seq<string>)
    requires UpdatePulledFields(instance, imported, fields).Success?
    ensures var once := UpdatePulledFields(instance, imported, fields).value.record;
            UpdatePulledFields(once, imported, fields) == Success(Pulled(once, false))
  {
    var once := UpdatePulledFields(instance, imported, fields).value.record;
    var twice := UpdatePulledFields(once, imported, fields);
    assert HasAll(once, fields);
    assert twice.value.record == once by {
      forall k | k in once ensures twice.value.record[k] == once[k] {
        if k in fields {
          var i :| 0 <= i < |fields| && fields[i] == k;
        }
      }
    }
  }

  /** With every listed field already equal, the record is left as it is and not saved. */
  lemma NoChangeNoSave<V>(instance: map<string, V>, imported: map<string, V>, fields: seq<string>)
    requires HasAll(instance, fields) && HasAll(imported, fields)
    requires forall i :: 0 <= i < |fields| ==> instance[fields[i]] == imported[fields[i]]
    ensures UpdatePulledFields(instance, imported, fields) == Success(Pulled(instance, false))
  {
    var r := UpdatePulledFields(instance, imported, fields);
    assert r.value.record == instance by {
      forall k | k in instance ensures r.value.record[k] == instance[k] {
        if k in fields {
          var i :| 0 <= i < |fields| && fields[i] == k;
        }
      }
    }
  }
}
