// The keys of a capability file. The decoder that follows matches names without
// regard to case and lets a later duplicate win; exactKeys refuses every file in
// which that would differ from what a reader sees.
module CapabilityKeys {
  // One member of the object, or a place where the file stops being JSON.
  datatype Item = Member(key: string, value: int) | Broken

  datatype Document = Object(items: seq<Item>) | NotAnObject

  datatype KeyError = NotObject | Malformed | UnknownKey | DuplicateKey

  datatype Verdict = Accepted | Refused(error: KeyError)

  const KEYS: set<string> :=
    {"network", "recipient", "resource", "max_amount_micro", "max_payments", "expires_at"}

  // How the decoder compares names; the six keys stay distinct under it.
  type Fold = string -> string

  predicate Separates(fold: Fold) {
    forall a <- KEYS, b <- KEYS :: fold(a) == fold(b) ==> a == b
  }

  // Where the decoder takes the value of a field from: the last member whose
  // name folds like the field's; -1 if there is none.
  function Winner(fold: Fold, items: seq<Item>, field: string): (w: int)
    ensures -1 <= w < |items|
    ensures w >= 0 ==> items[w].Member? && fold(items[w].key) == fold(field)
    ensures forall j :: w < j < |items| && items[j].Member? ==> fold(items[j].key) != fold(field)
  {
    if items == [] then -1
    else
      var k := |items| - 1;
      if items[k].Member? && fold(items[k].key) == fold(field) then k else Winner(fold, items[..k], field)
  }

  // Every member is spelled exactly as a field is, and is the one the decoder
  // takes that field from.
  predicate ReadsAsWritten(fold: Fold, items: seq<Item>) {
    forall i :: 0 <= i < |items| ==>
      items[i].Member? && items[i].key in KEYS && Winner(fold, items, items[i].key) == i
  }

  predicate Clean(items: seq<Item>, n: nat)
    requires n <= |items|
  {
    && (forall i :: 0 <= i < n ==> items[i].Member? && items[i].key in KEYS)
    && (forall i, j :: 0 <= i < j < n ==> items[i].key != items[j].key)
  }

  lemma CleanIffReadsAsWritten(fold: Fold, items: seq<Item>)
    requires Separates(fold)
    ensures Clean(items, |items|) <==> ReadsAsWritten(fold, items)
  {
    if ReadsAsWritten(fold, items) {
      forall i, j | 0 <= i < j < |items|
        ensures items[i].key != items[j].key
      {
        assert Winner(fold, items, items[i].key) == i && Winner(fold, items, items[j].key) == j;
      }
    }
    if Clean(items, |items|) {
      forall i | 0 <= i < |items|
        ensures Winner(fold, items, items[i].key) == i
      {
        var w := Winner(fold, items, items[i].key);
        assert items[w].key == items[i].key;
      }
    }
  }

  method ExactKeys(d: Document) returns (v: Verdict)
    ensures v.Accepted? <==> d.Object? && Clean(d.items, |d.items|)
    ensures forall fold: Fold :: Separates(fold) ==> (v.Accepted? <==> d.Object? && ReadsAsWritten(fold, d.items))
    ensures v == Refused(NotObject) <==> d.NotAnObject?
  {
    if d.NotAnObject? {
      return Refused(NotObject);
    }
    forall fold: Fold | Separates(fold)
      ensures Clean(d.items, |d.items|) <==> ReadsAsWritten(fold, d.items)
    {
      CleanIffReadsAsWritten(fold, d.items);
    }
    var seen: set<string> := {};
    for i := 0 to |d.items|
      invariant Clean(d.items, i)
      invariant seen == set j | 0 <= j < i :: d.items[j].key
    {
      match d.items[i]
      case Broken => return Refused(Malformed);
      case Member(key, _) =>
        if key !in KEYS {
          return Refused(UnknownKey);
        }
        if key in seen {
          return Refused(DuplicateKey);
        }
        seen := seen + {key};
    }
    return Accepted;
  }
}
