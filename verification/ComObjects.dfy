/** Identities of native COM interfaces; a null pointer is not one. */
module ComObjects {
  type ObjectId = id: nat | id > 0 witness 1
}
