/** The dataset the parser produces and the trainer consumes (`src/parsing/mod.rs`). */
module Parsing {
  import opened Matrices

  /** Feature rows and one-hot target rows; row `i` of `target` labels row `i` of `data`. */
  datatype Dataset = Dataset(data: Matrix, target: Matrix)
}
