/**
 * The Order model: a row of the `orders` table as a map from column name to
 * value, the mass-assignment filter its `$fillable` list defines and the
 * serialisation its `$hidden` list defines.
 */
module Models {
  import opened Values

  /** The attributes mass assignment may set. */
  const FILLABLE: set<string> := {"user_id", "order_date", "product_list", "status", "total_amount"}

  /** The attributes serialisation leaves out. */
  const HIDDEN: set<string> := {"created_at", "updated_at"}

  /** Only the fillable attributes of `attrs`, with their values; everything else is dropped without error. */
  function Fillable(attrs: Attributes): (kept: Attributes)
    ensures kept.Keys == attrs.Keys * FILLABLE
    ensures forall k :: k in kept ==> kept[k] == attrs[k]
  {
    map k | k in attrs && k in FILLABLE :: attrs[k]
  }

  /** Mass assignment (`fill`, used by `create` and `update`): the fillable attributes of `attrs` overwrite those of the model. */
  function Fill(model: Attributes, attrs: Attributes): (filled: Attributes)
    ensures filled.Keys == model.Keys + attrs.Keys * FILLABLE
  {
    model + Fillable(attrs)
  }

  /** The serialised form of a model (`toArray`, and so every JSON response and job payload). */
  function ToArray(attrs: Attributes): (shown: Attributes)
    ensures shown.Keys == attrs.Keys - HIDDEN
    ensures forall k :: k in shown ==> shown[k] == attrs[k]
  {
    map k | k in attrs && k !in HIDDEN :: attrs[k]
  }

  /** Mass assignment sets an attribute exactly when it is fillable, and then to the given value. */
  lemma FillSetsExactlyFillable(model: Attributes, attrs: Attributes, k: string)
    ensures k in attrs && k in FILLABLE ==> k in Fill(model, attrs) && Fill(model, attrs)[k] == attrs[k]
    ensures !(k in attrs && k in FILLABLE) ==>
      (k in Fill(model, attrs) <==> k in model) && (k in model ==> Fill(model, attrs)[k] == model[k])
  {
  }

  /** Neither `create` nor `update` can set or change an id, whatever attributes they are given. */
  lemma IdNeverMassAssigned(model: Attributes, attrs: Attributes)
    ensures ("id" in Fill(model, attrs)) == ("id" in model)
    ensures "id" in model ==> Fill(model, attrs)["id"] == model["id"]
  {
  }

  /** `fill(['status' => s])`, the mass-assignment step of `update`, sets the status and no other attribute. */
  lemma StatusIsMassAssignable(model: Attributes, s: Value)
    ensures Fill(model, map["status" := s]) == model["status" := s]
  {
  }

  /** The serialised form never shows a timestamp column and keeps every other attribute as it is. */
  lemma ToArrayHidesTimestamps(attrs: Attributes)
    ensures "created_at" !in ToArray(attrs) && "updated_at" !in ToArray(attrs)
    ensures forall k :: k in attrs && k != "created_at" && k != "updated_at" ==>
      k in ToArray(attrs) && ToArray(attrs)[k] == attrs[k]
  {
  }

  /** Serialising twice gives what serialising once gives. */
  lemma ToArrayIdempotent(attrs: Attributes)
    ensures ToArray(ToArray(attrs)) == ToArray(attrs)
  {
  }

  /** Serialisation ignores the hidden columns: rows that differ only in their timestamps look the same. */
  lemma ToArrayIgnoresHidden(attrs: Attributes, k: string, v: Value)
    requires k in HIDDEN
    ensures ToArray(attrs[k := v]) == ToArray(attrs)
  {
  }

  /** Serialisation commutes with setting a visible attribute. */
  lemma ToArraySetVisible(attrs: Attributes, k: string, v: Value)
    requires k !in HIDDEN
    ensures ToArray(attrs[k := v]) == ToArray(attrs)[k := v]
  {
  }
}
