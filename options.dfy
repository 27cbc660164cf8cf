/** The optional value used wherever the game's code holds an `Option`. */
module Options {

  datatype Option<+T> = None | Some(value: T)

}
