/**
 * MultiSelectionFieldModel: the model behind a widget that offers several
 * choices, each with a label, an optional tooltip and an optional
 * enablement, and a set of selected values.
 */
module MultiSelection {
  import opened Outcomes
  import opened StringOrder

  /**
   * A `LiveExpression<Boolean>` saying whether a choice is enabled, as an
   * opaque handle; `AlwaysEnabled` is the class's constant ALLWAYS_ENABLED.
   */
  datatype Enablement = AlwaysEnabled | Live(handle: nat)

  /** Every key of `m` in `s` has a label and `s` is in ascending label order. */
  ghost predicate SortedByLabel<T>(s: seq<T>, m: map<T, string>)
  {
    (forall k :: 0 <= k < |s| ==> s[k] in m) &&
    forall i, j :: 0 <= i < j < |s| ==> NotAfter(m[s[i]], m[s[j]])
  }

  class MultiSelectionFieldModel<T(==,!new)> {
    const name: string
    /** The label of the field itself. */
    var fieldLabel: string
    /** The keys of `labelMap`, in insertion order. */
    var choices: seq<T>
    /** `labelMap`: the label of each choice; a label may be null. */
    var labels: map<T, Option<string>>
    /** Null until the first tooltip is set. */
    var tooltips: Option<map<T, Option<string>>>
    /** Null until the first choice with an enablement is added. */
    var enablements: Option<map<T, Option<Enablement>>>
    var mustSort: bool
    /** The selected values. */
    var selecteds: set<T>

    /** `choices` lists the keys of `labels`, each once. */
    ghost predicate Valid()
      reads this
    {
      (forall i, j :: 0 <= i < j < |choices| ==> choices[i] != choices[j]) &&
      (forall v :: v in labels <==> v in choices)
    }

    constructor (name: string)
      ensures Valid()
      ensures this.name == name && fieldLabel == name
      ensures choices == [] && labels == map[]
      ensures tooltips == None && enablements == None
      ensures !mustSort && selecteds == {}
      ensures forall v :: GetLabel(v) == None && GetTooltip(v) == None && GetEnablement(v) == AlwaysEnabled
    {
      this.name := name;
      fieldLabel := name;
      choices := [];
      labels := map[];
      tooltips := None;
      enablements := None;
      mustSort := false;
      selecteds := {};
    }

    /** getLabel(value): the label registered for `v`, null if none. */
    function GetLabel(v: T): (r: Option<string>)
      reads this
      requires Valid()
      ensures r.Some? ==> v in choices
    {
      if v in labels then labels[v] else None
    }

    /** The tooltip map, an empty one while it is not allocated. */
    function TooltipMap(): (m: map<T, Option<string>>)
      reads this
    {
      if tooltips.Some? then tooltips.value else map[]
    }

    /** getTooltip(value): null unless a tooltip was set for `v`. */
    function GetTooltip(v: T): (r: Option<string>)
      reads this
      ensures tooltips.None? ==> r == None
    {
      if v in TooltipMap() then TooltipMap()[v] else None
    }

    /** The enablement map, an empty one while it is not allocated. */
    function EnablementMap(): (m: map<T, Option<Enablement>>)
      reads this
    {
      if enablements.Some? then enablements.value else map[]
    }

    /** getEnablement(choice): the registered non-null enablement, else ALLWAYS_ENABLED. */
    function GetEnablement(v: T): (r: Enablement)
      reads this
      ensures enablements.None? ==> r == AlwaysEnabled
    {
      if v in EnablementMap() && EnablementMap()[v].Some? then EnablementMap()[v].value
      else AlwaysEnabled
    }

    /** add(v): selects `v`. */
    method Add(v: T)
      modifies this`selecteds
      ensures selecteds == old(selecteds) + {v}
    {
      selecteds := selecteds + {v};
    }

    /** remove(v): deselects `v`. */
    method Remove(v: T)
      modifies this`selecteds
      ensures selecteds == old(selecteds) - {v}
    {
      selecteds := selecteds - {v};
    }

    /**
     * choice(label, value): registers `v` with `text` as its label; fails
     * with an illegal argument when `v` already has a non-null label.  A
     * value registered before with a null label keeps its place.
     */
    method Choice(text: Option<string>, v: T) returns (r: Outcome<()>)
      requires Valid()
      modifies this`choices, this`labels
      ensures Valid()
      ensures r.Thrown? <==> old(GetLabel(v)).Some?
      ensures r.Thrown? ==> r.ex == IllegalArgument && choices == old(choices) && labels == old(labels)
      ensures r.Normal? ==> labels == old(labels)[v := text]
      ensures r.Normal? ==> choices == if v in old(choices) then old(choices) else old(choices) + [v]
      ensures r.Normal? ==> GetLabel(v) == text
      ensures forall w :: w != v ==> GetLabel(w) == old(GetLabel(w))
    {
      if GetLabel(v).Some? {
        return Thrown(IllegalArgument);
      }
      if v !in labels {
        choices := choices + [v];
      }
      labels := labels[v := text];
      r := Normal(());
    }

    /** setTooltip(value, text): allocates the tooltip map if needed and records `text` for `v`. */
    method SetTooltip(v: T, text: Option<string>)
      modifies this`tooltips
      ensures tooltips == Some(old(TooltipMap())[v := text])
      ensures GetTooltip(v) == text
      ensures forall w :: w != v ==> GetTooltip(w) == old(GetTooltip(w))
    {
      if tooltips.None? {
        tooltips := Some(map[]);
      }
      tooltips := Some(tooltips.value[v := text]);
    }

    /** choice(label, value, tooltip): a choice, then its tooltip. */
    method ChoiceWithTooltip(text: Option<string>, v: T, tooltip: Option<string>) returns (r: Outcome<()>)
      requires Valid()
      modifies this`choices, this`labels, this`tooltips
      ensures Valid()
      ensures r.Thrown? <==> old(GetLabel(v)).Some?
      ensures r.Thrown? ==> r.ex == IllegalArgument && choices == old(choices) && labels == old(labels)
      ensures r.Thrown? ==> tooltips == old(tooltips)
      ensures r.Normal? ==> labels == old(labels)[v := text]
      ensures r.Normal? ==> choices == if v in old(choices) then old(choices) else old(choices) + [v]
      ensures r.Normal? ==> tooltips == Some(old(TooltipMap())[v := tooltip])
    {
      r := Choice(text, v);
      if r.Normal? {
        SetTooltip(v, tooltip);
      }
    }

    /**
     * choice(label, value, tooltip, enablement): a choice with its tooltip,
     * then its enablement, allocating the enablement map if needed.
     */
    method ChoiceWithEnablement(text: Option<string>, v: T, tooltip: Option<string>, enablement: Option<Enablement>)
      returns (r: Outcome<()>)
      requires Valid()
      modifies this`choices, this`labels, this`tooltips, this`enablements
      ensures Valid()
      ensures r.Thrown? <==> old(GetLabel(v)).Some?
      ensures r.Thrown? ==> r.ex == IllegalArgument && choices == old(choices) && labels == old(labels)
      ensures r.Thrown? ==> tooltips == old(tooltips) && enablements == old(enablements)
      ensures r.Normal? ==> labels == old(labels)[v := text]
      ensures r.Normal? ==> choices == if v in old(choices) then old(choices) else old(choices) + [v]
      ensures r.Normal? ==> tooltips == Some(old(TooltipMap())[v := tooltip])
      ensures r.Normal? ==> enablements == Some(old(EnablementMap())[v := enablement])
      ensures r.Normal? ==> GetEnablement(v) == if enablement.Some? then enablement.value else AlwaysEnabled
      ensures forall w :: w != v ==> GetEnablement(w) == old(GetEnablement(w))
    {
      r := ChoiceWithTooltip(text, v, tooltip);
      if r.Normal? {
        if enablements.None? {
          enablements := Some(map[]);
        }
        enablements := Some(enablements.value[v := enablement]);
      }
    }

    /** sort(): from now on the choices are listed by label. */
    method Sort()
      modifies this`mustSort
      ensures mustSort
    {
      mustSort := true;
    }

    /** Some registered choice has a null label. */
    predicate HasNullLabel()
      reads this
    {
      exists i :: 0 <= i < |choices| && choices[i] in labels && labels[choices[i]].None?
    }

    /** The non-null labels. */
    function LabelTexts(): (m: map<T, string>)
      reads this
      ensures forall v :: v in m <==> v in labels && labels[v].Some?
    {
      map v | v in labels && labels[v].Some? :: labels[v].value
    }

    /**
     * getChoices(): a fresh array of the registered choices, in insertion
     * order, or by ascending label after sort().  Sorting two or more
     * choices compares each of them, and a comparison with a null label
     * fails.
     */
    method GetChoices() returns (r: Outcome<array<T>>)
      requires Valid()
      ensures r.Normal? ==> fresh(r.value)
      ensures !mustSort ==> r.Normal? && r.value[..] == choices
      ensures mustSort ==> (r.Thrown? <==> |choices| >= 2 && HasNullLabel())
      ensures r.Thrown? ==> r.ex == NullPointer
      ensures mustSort && r.Normal? ==> multiset(r.value[..]) == multiset(choices)
      ensures mustSort && r.Normal? && |choices| >= 2 ==> SortedByLabel(r.value[..], LabelTexts())
    {
      var values := choices;
      var a := new T[|values|](i requires 0 <= i < |values| => values[i]);
      assert a[..] == choices;
      if mustSort && |values| >= 2 {
        if HasNullLabel() {
          return Thrown(NullPointer);
        }
        var texts := LabelTexts();
        SortByLabel(a, texts);
      }
      r := Normal(a);
    }
  }

  /** Swaps two elements of `a`. */
  method Swap<T>(a: array<T>, i: int, j: int)
    requires 0 <= i < a.Length && 0 <= j < a.Length
    modifies a
    ensures a[..] == old(a[..])[i := old(a[j])][j := old(a[i])]
    ensures multiset(a[..]) == multiset(old(a[..]))
  {
    a[i], a[j] := a[j], a[i];
  }

  /**
   * `Arrays.sort` with the label comparator: sorts `a` in place by
   * ascending label, keeping its elements.
   */
  method SortByLabel<T>(a: array<T>, texts: map<T, string>)
    requires forall k :: 0 <= k < a.Length ==> a[k] in texts
    modifies a
    ensures SortedByLabel(a[..], texts)
    ensures multiset(a[..]) == multiset(old(a[..]))
  {
    var i := 0;
    while i < a.Length
      invariant 0 <= i <= a.Length
      invariant forall k :: 0 <= k < a.Length ==> a[k] in texts
      invariant forall p, q :: 0 <= p < q < i ==> NotAfter(texts[a[p]], texts[a[q]])
      invariant multiset(a[..]) == multiset(old(a[..]))
    {
      var j := i;
      while j > 0 && CompareTo(texts[a[j]], texts[a[j - 1]]) < 0
        invariant 0 <= j <= i
        invariant forall k :: 0 <= k < a.Length ==> a[k] in texts
        invariant forall p, q :: 0 <= p < q <= i && p != j && q != j ==> NotAfter(texts[a[p]], texts[a[q]])
        invariant forall q :: j < q <= i ==> NotAfter(texts[a[j]], texts[a[q]])
        invariant multiset(a[..]) == multiset(old(a[..]))
      {
        Swap(a, j - 1, j);
        j := j - 1;
      }
      if j > 0 {
        CompareToAntisymmetric(texts[a[j]], texts[a[j - 1]]);
        forall p | 0 <= p < j - 1
          ensures NotAfter(texts[a[p]], texts[a[j]])
        {
          NotAfterTransitive(texts[a[p]], texts[a[j - 1]], texts[a[j]]);
        }
      }
      i := i + 1;
    }
  }
}
