/** The exceptions the metrics kernel can raise, as values. */
module Errors {

  datatype Error =
    | LengthMismatch        // scikit-learn: y_true and y_pred hold different numbers of samples
    | NotIterable           // enumerate() applied to a per-class value that is not a vector
    | IndexOutOfBounds      // NumPy fancy indexing with an index outside the axis
    | NothingToConcatenate  // NumPy concatenate() of an empty list of arrays
}
