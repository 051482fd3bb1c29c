/**
 * The account data exchanged with the back end (`models/customer.ts`). An
 * optional property is an `Option`; these records carry no logic of their own.
 */
module Models {
  import opened Wrappers

  datatype Customer = Customer(
    customerId: string,
    userName: string,
    email: Option<string>,
    firstName: Option<string>,
    lastName: Option<string>,
    phone: Option<string>,
    addresses: Option<seq<Address>>,
    creditCards: Option<seq<CreditCard>>,
    customerStatuses: Option<seq<CustomerStatus>>)

  datatype Address = Address(
    addressId: Option<string>,
    addressType: string,
    firstName: string,
    lastName: string,
    address1: string,
    address2: Option<string>,
    city: string,
    state: string,
    zip: string,
    isDefault: bool)

  datatype CreditCard = CreditCard(
    cardId: Option<string>,
    cardType: string,
    cardNumber: string,
    cardHolderName: string,
    cardExpires: string,
    cardCvv: string,
    isDefault: bool)

  datatype CustomerStatus = CustomerStatus(customerStatus: string, statusDateTime: string)
}
