/** Failure-carrying results. The source raises exceptions from the tensor
    library; here each raise becomes an `Err` value naming its cause. */
module Outcomes {

  datatype Option<+T> = None | Some(value: T)

  datatype Error =
    | EmptyList        // concatenating or stacking a list that holds no tensors
    | IndexOutOfRange  // indexing the list of sub-layers past its end
    | ShapeMismatch    // stacking slices whose lengths differ

  datatype Result<+T> = Ok(value: T) | Err(error: Error)
}
