/**
 * The toast list of components/ui/toast.tsx: `addToast` appends a toast
 * under a fresh id, `removeToast` and the five-second auto-dismiss remove by
 * id, and `useToast` refuses to run outside the provider. The id
 * (`crypto.randomUUID()`) is a parameter and the timer a separate step.
 */
module Toasts {
  import opened Outcomes
  import opened Seqs

  datatype ToastVariant = Default | Success | Error | Warning

  datatype Toast = Toast(id: string, message: string, variant: ToastVariant)

  /** The ids of the toasts on screen. */
  function Ids(toasts: seq<Toast>): (r: set<string>)
    ensures forall id :: id in r <==> exists k :: 0 <= k < |toasts| && toasts[k].id == id
  {
    set k | 0 <= k < |toasts| :: toasts[k].id
  }

  /** `addToast(message, variant = "default")`: one toast at the end; the others are untouched. */
  function AddToast(toasts: seq<Toast>, id: string, message: string, variant: Option<ToastVariant>): (r: seq<Toast>)
    ensures |r| == |toasts| + 1 && r[..|toasts|] == toasts
    ensures r[|toasts|] == Toast(id, message, variant.GetOr(Default))
  {
    toasts + [Toast(id, message, variant.GetOr(Default))]
  }

  function HasId(id: string): Toast -> bool {
    (t: Toast) => t.id == id
  }

  /** `removeToast(id)`, which is also what a toast's auto-dismiss timer runs: exactly the toasts with that id go, the rest keep their order. */
  function RemoveToast(toasts: seq<Toast>, id: string): (r: seq<Toast>)
    ensures forall t :: t in r <==> t in toasts && t.id != id
    ensures IsSubsequence(r, toasts)
    ensures id !in Ids(r)
    ensures |r| == |toasts| - Count(HasId(id), toasts)
  {
    FilterIsSubsequence(Not(HasId(id)), toasts);
    FilterPartition(HasId(id), toasts);
    Filter(Not(HasId(id)), toasts)
  }

  /** Removing an id that is not shown changes nothing. */
  lemma RemoveAbsentIsNoop(toasts: seq<Toast>, id: string)
    requires id !in Ids(toasts)
    ensures RemoveToast(toasts, id) == toasts
  {
    FilterKeepsAll(Not(HasId(id)), toasts);
  }

  /** Removal is idempotent, so a manual dismissal followed by the timer is harmless. */
  lemma RemoveIdempotent(toasts: seq<Toast>, id: string)
    ensures RemoveToast(RemoveToast(toasts, id), id) == RemoveToast(toasts, id)
  {
    RemoveAbsentIsNoop(RemoveToast(toasts, id), id);
  }

  /** Adding under a fresh id and then removing that id gives back the list. */
  lemma AddThenRemove(toasts: seq<Toast>, id: string, message: string, variant: Option<ToastVariant>)
    requires id !in Ids(toasts)
    ensures RemoveToast(AddToast(toasts, id, message, variant), id) == toasts
  {
    FilterConcat(Not(HasId(id)), toasts, [Toast(id, message, variant.GetOr(Default))]);
    RemoveAbsentIsNoop(toasts, id);
    assert Filter(Not(HasId(id)), [Toast(id, message, variant.GetOr(Default))]) == [];
  }

  /** Removals by different ids commute: dismissals may fire in any order. */
  lemma RemovalsCommute(toasts: seq<Toast>, a: string, b: string)
    ensures RemoveToast(RemoveToast(toasts, a), b) == RemoveToast(RemoveToast(toasts, b), a)
  {
    FilterCommute(Not(HasId(a)), Not(HasId(b)), toasts);
  }

  /** What `useToast` gives: `addToast`/`removeToast` bound to the enclosing provider's list, or the thrown error. */
  datatype UseToastResult = Bound(toasts: seq<Toast>) | Threw(message: string)

  /** `useToast`: the enclosing provider's functions, or the "must be used within ToastProvider" error without one. */
  function UseToast(provider: Option<seq<Toast>>): (r: UseToastResult)
    ensures r.Bound? <==> provider.Some?
    ensures r.Bound? ==> r.toasts == provider.value
    ensures r.Threw? ==> r.message == "useToast must be used within ToastProvider"
  {
    match provider
    case Some(toasts) => Bound(toasts)
    case None => Threw("useToast must be used within ToastProvider")
  }

  /**
   * Inside a provider, `useToast` hands out exactly the provider's list:
   * a toast added through it and then removed leaves that list as it was;
   * outside one, the hook throws instead of handing out a list.
   */
  lemma UseToastActsOnProvider(provider: Option<seq<Toast>>, id: string, message: string, variant: Option<ToastVariant>)
    ensures provider.None? ==> !UseToast(provider).Bound?
    ensures provider.Some? && id !in Ids(provider.value) ==>
              RemoveToast(AddToast(UseToast(provider).toasts, id, message, variant), id) == provider.value
  {
    if provider.Some? && id !in Ids(provider.value) {
      AddThenRemove(provider.value, id, message, variant);
    }
  }
}
