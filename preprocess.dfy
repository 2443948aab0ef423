/**
 * The preprocessing pipeline of ppcls/data/preprocess/__init__.py: the
 * `transform` loop that runs the configured operators over one sample, and
 * the wrappers that let the augmentation policies accept either a PIL image
 * or a numpy array.
 *
 * Images stay abstract: `P` stands for a PIL image and `A` for a numpy array,
 * `fromArray` for `Image.fromarray(np.ascontiguousarray(x))` and `asArray` for
 * `np.asarray`. The draw of `random.random()` is an argument.
 */
module Preprocess {
  import opened Common
  import RandAugment

  // ----- transform -----

  /** `transform(data, ops)`: rebinds `data` to each operator's result in turn. */
  method Transform<D>(data0: D, ops: seq<D -> D>) returns (data: D)
    ensures data == ApplyInOrder(ops, data0)
  {
    data := data0;
    for k := 0 to |ops|
      invariant data == ApplyInOrder(ops[..k], data0)
    {
      assert ops[..k + 1][..k] == ops[..k];
      data := ops[k](data);
    }
    assert ops[..|ops|] == ops;
  }

  /**
   * The empty pipeline is the identity, a single operator is applied once, and
   * a pipeline split in two runs its first part and then its second.
   */
  lemma TransformLaws<D>(ops: seq<D -> D>, more: seq<D -> D>, op: D -> D, data: D)
    ensures ApplyInOrder([], data) == data
    ensures ApplyInOrder([op], data) == op(data)
    ensures ApplyInOrder(ops + more, data) == ApplyInOrder(more, ApplyInOrder(ops, data))
  {
    assert [op][..0] == [];
    ApplyInOrderAppend(ops, more, data);
  }

  // ----- the type-converting wrappers -----

  /** What a wrapper may be handed or may get back: a PIL image or a numpy array. */
  datatype Data<P, A> = Pil(pil: P) | Array(arr: A)

  /** The conversion before the policy: an array becomes a PIL image, a PIL image is kept. */
  function ToPil<P, A>(img: Data<P, A>, fromArray: A -> P): P
  {
    match img
    case Pil(p) => p
    case Array(a) => fromArray(a)
  }

  /** The conversion after the policy: a PIL image becomes an array, anything else is kept. */
  function ToArray<P, A>(img: Data<P, A>, asArray: P -> A): (r: Data<P, A>)
    ensures r.Array?
  {
    match img
    case Pil(p) => Array(asArray(p))
    case Array(a) => img
  }

  /** The `__call__` shared by the AutoAugment, RandAugment and RandAugmentV2 wrappers. */
  function Wrapped<P, A>(img: Data<P, A>, policy: P -> Data<P, A>, fromArray: A -> P, asArray: P -> A): Data<P, A>
  {
    ToArray(policy(ToPil(img, fromArray)), asArray)
  }

  /** `TimmAutoAugment.__call__`: the policy runs only when the draw is below `prob`. */
  function TimmWrapped<P, A>(img: Data<P, A>, prob: real, draw: real, policy: P -> Data<P, A>,
                             fromArray: A -> P, asArray: P -> A): Data<P, A>
  {
    var pil := ToPil(img, fromArray);
    var out := if draw < prob then policy(pil) else Pil(pil);
    ToArray(out, asArray)
  }

  /**
   * A wrapper always returns an array. The policy sees a PIL input as it
   * came and an array input converted by `fromArray`; a PIL result is handed
   * back through `asArray`, an array result as it is.
   */
  lemma WrappedConverts<P, A>(img: Data<P, A>, policy: P -> Data<P, A>, fromArray: A -> P, asArray: P -> A)
    ensures Wrapped(img, policy, fromArray, asArray).Array?
    ensures img.Pil? && policy(img.pil).Pil? ==>
      Wrapped(img, policy, fromArray, asArray) == Array(asArray(policy(img.pil).pil))
    ensures img.Array? && policy(fromArray(img.arr)).Pil? ==>
      Wrapped(img, policy, fromArray, asArray) == Array(asArray(policy(fromArray(img.arr)).pil))
    ensures img.Pil? && policy(img.pil).Array? ==>
      Wrapped(img, policy, fromArray, asArray) == policy(img.pil)
  {
  }

  /**
   * The TimmAutoAugment gate over the draw's range [0, 1): the policy runs
   * exactly when the draw is below `prob`, so always when `prob` is at least 1
   * and never when it is at most 0; a skipped policy leaves only the two
   * conversions, a PIL input coming back as `asArray` of itself.
   */
  lemma TimmGate<P, A>(img: Data<P, A>, prob: real, draw: real, policy: P -> Data<P, A>,
                       fromArray: A -> P, asArray: P -> A)
    requires 0.0 <= draw < 1.0
    ensures draw < prob ==> TimmWrapped(img, prob, draw, policy, fromArray, asArray) == Wrapped(img, policy, fromArray, asArray)
    ensures draw >= prob ==>
      TimmWrapped(img, prob, draw, policy, fromArray, asArray) == Array(asArray(ToPil(img, fromArray)))
    ensures prob >= 1.0 ==> TimmWrapped(img, prob, draw, policy, fromArray, asArray) == Wrapped(img, policy, fromArray, asArray)
    ensures prob <= 0.0 && img.Pil? ==> TimmWrapped(img, prob, draw, policy, fromArray, asArray) == Array(asArray(img.pil))
    ensures TimmWrapped(img, prob, draw, policy, fromArray, asArray).Array?
  {
  }

  /**
   * The RandAugment and RandAugmentV2 wrappers around a policy `p`: the
   * layers run on the PIL image and, every operation returning a PIL image,
   * the result is always converted back to an array.
   */
  function RandAugmentWrapped<P, A>(p: RandAugment.Policy, img: Data<P, A>, choices: seq<string>,
                                    apply: (RandAugment.Impl, P, RandAugment.Level) -> P,
                                    fromArray: A -> P, asArray: P -> A): Result<Data<P, A>>
    requires Max(0, p.numLayers) <= |choices|
  {
    var out :- RandAugment.CallSpec(p, ToPil(img, fromArray), choices, apply);
    Ok(ToArray(Pil(out), asArray))
  }

  /**
   * A wrapped consistent policy (both constructed ones are, by
   * `RandAugment.ConsistentV1` and `RandAugment.ConsistentV2`) with names drawn
   * from its keys succeeds and returns the array of the layers' result; with
   * no layers the input comes back as the array of its PIL conversion.
   */
  lemma RandAugmentWrappedDrawn<P, A>(p: RandAugment.Policy, img: Data<P, A>, choices: seq<string>,
                                      apply: (RandAugment.Impl, P, RandAugment.Level) -> P,
                                      fromArray: A -> P, asArray: P -> A)
    requires Max(0, p.numLayers) <= |choices|
    requires RandAugment.Consistent(p)
    requires forall k :: 0 <= k < |choices| ==> choices[k] in p.keyOrder
    ensures RandAugment.Layers(p, choices, Max(0, p.numLayers)).Ok?
    ensures var steps := RandAugment.Layers(p, choices, Max(0, p.numLayers)).value;
      |steps| == Max(0, p.numLayers)
      && RandAugmentWrapped(p, img, choices, apply, fromArray, asArray)
         == Ok(Array(asArray(RandAugment.ApplySteps(apply, steps, ToPil(img, fromArray)))))
    ensures p.numLayers <= 0 ==>
      RandAugmentWrapped(p, img, choices, apply, fromArray, asArray) == Ok(Array(asArray(ToPil(img, fromArray))))
  {
    RandAugment.CallDrawn(p, ToPil(img, fromArray), choices, apply);
  }
}
