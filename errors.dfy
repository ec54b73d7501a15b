/** Errors raised by the services and the result type that carries them.
    The services throw EntityNotFoundException (NotFound, mapped to 404) and
    BadRequestException (BadRequest, mapped to 400); here they are values. */
module Errors {

  /** The kind of record a NotFound error names in its message. */
  datatype Entity = InventoryRecord | PurchaseRecord | AnimalRecord

  datatype Error =
    | NotFound(entity: Entity, id: int)
    | BadRequest(message: string)

  /** The outcome of a service call: a value, or the exception it raised. */
  datatype Result<+T> = Ok(value: T) | Err(error: Error)

  /** Message of the insufficient-stock rejection in the order engine. */
  const NotEnoughStock: string := "the purchase cannot be confirmed; not enough items in inventory"

  /** Message of the missing-owner rejection when an animal is created. */
  const OwnerMissing: string := "You have to create the client before adding its animal!"
}
