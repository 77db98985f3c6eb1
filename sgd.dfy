/**
 * Stochastic gradient descent: param({i}) -= learning_rate * grad({i}) for
 * every i below param.size().  The caller's tensor is updated in place; here
 * the update returns the new value of the parameter.
 */
module SGDOptimizer {
  import opened Tensors
  import opened Optimizers

  class SGD {
    const learningRate: real

    constructor(learningRate: real)
      ensures this.learningRate == learningRate
    {
      this.learningRate := learningRate;
    }

    /** The gradient's length is not checked: it must cover the parameter. */
    method Update(param: Tensor, grad: Tensor) returns (updated: Tensor)
      requires Accessible(param, grad)
      ensures updated == ScaledDifference(param, grad, learningRate)
      ensures updated.Valid() && updated.shape == param.shape
    {
      updated := SubtractScaled(param, grad, learningRate);
    }
  }

  /** An update moves every element against the gradient and keeps the shape; with
      learning rate 0 the parameter is unchanged. */
  lemma UpdateMeaning(param: Tensor, grad: Tensor, lr: real)
    requires Accessible(param, grad)
    ensures ScaledDifference(param, grad, lr).shape == param.shape
    ensures forall i :: 0 <= i < |param.data| ==> ScaledDifference(param, grad, lr).data[i] == param.data[i] - lr * grad.data[i]
    ensures ScaledDifference(param, grad, 0.0) == param
  {
    ZeroRateKeeps(param, grad);
  }
}
