/**
 * The position a strategy holds.
 */
module Position {

  datatype SimplePosition = Nothing | Long | Short
}
