/** Option and Result, the failure-carrying values the rest of the model returns. */
module Wrappers {

  datatype Option<+T> = None | Some(value: T)

  datatype Result<+T, +E> = Ok(value: T) | Err(error: E)
}

/** The exceptions the pipeline raises, as values. */
module Errors {

  datatype Error =
    | DuplicateCategories(column: string)     // pd.Categorical refuses repeated categories (ValueError)
    | MissingFeatureColumn(name: string)      // a retained feature is not a generated column (KeyError)
    | MissingTimestamp(column: string)        // a Fecha-I / Fecha-O value is absent
    | MalformedTimestamp(column: string)      // strptime cannot read the value (ValueError)
    | UnsupportedTarget(name: string)         // a target column other than the delay label
    | ZeroPositiveLabels                      // label_0 / label_1 with label_1 == 0 (ZeroDivisionError)
    | EmptyFrameApply(column: string)         // a row-wise apply over a frame with no rows (ValueError)
    | ArtifactMissing                         // joblib.load finds no model.pkl
    | ArtifactCorrupt                         // joblib.load reads a model.pkl a failed dump left truncated
}
