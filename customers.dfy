/** Customer search and creation (customers.go). */
module Customers {
  import opened Wrappers
  import opened Text
  import opened Models
  import opened Net

  const NoCustomerFound := "No Customer Found"
  const SearchPath := "Job/GetCustomerSearch?"
  const CreatePath := "Job/AddEditCustomerDetail"

  datatype Address = Address(
    addressId: int, addressType: int,
    addressLine1: string, addressLine2: string, zip: string, city: string, state: string,
    lat: string, long: string, firstName: string, lastName: string, primaryPhone: string, email: string,
    notifyEmail: bool, notifyPrimaryPhone: bool)

  datatype Customer = Customer(
    firstName: string, lastName: string, companyName: string, email: string, primaryPhone: string,
    customerId: int, isActive: bool, addresses: seq<Address>)

  datatype CustomerRequest = CustomerRequest(
    firstName: string, lastName: string, customerType: string, email: string, primaryPhone: string,
    customerId: int, isSendEmail: bool, isSendSms: bool, address: Address)

  /** The platform's way of saying nothing matched: a single customer named "No Customer Found". */
  predicate IsNotFoundSentinel(cs: seq<Customer>) {
    |cs| == 1 && EqualFold(cs[0].firstName, NoCustomerFound)
  }

  /** What SearchCustomers makes of the reply: the error or the error object first, then a
      failing envelope, each with no customers; the sentinel becomes an empty result; any
      other list comes back as it is. */
  function CustomersFound(r: Reply<ListResponse<Customer>>): (res: (seq<Customer>, Option<Failure>))
    requires Complete(r)
    ensures Screened(r).Some? ==> res == ([], Screened(r))
    ensures Screened(r).None? ==>
      var resp := r.out.value;
      && res.1 == StatusError(Some(resp.apiStatus))
      && (res.1.Some? ==> res.0 == [])
      && (res.1.None? ==> res.0 == if IsNotFoundSentinel(resp.items) then [] else resp.items)
  {
    match Screened(r)
    case Some(f) => ([], Some(f))
    case None =>
      var resp := r.out.value;
      var err := StatusError(Some(resp.apiStatus));
      if err.Some? then ([], err)
      else if |resp.items| == 1 && EqualFold(resp.items[0].firstName, NoCustomerFound) then ([], None)
      else (resp.items, None)
  }

  /** A successful search comes back empty exactly when the platform sent no customer or
      only the sentinel; otherwise nothing is dropped. */
  lemma SearchEmptiesOnlyTheSentinel(r: Reply<ListResponse<Customer>>)
    requires Complete(r) && Screened(r).None? && StatusError(Some(r.out.value.apiStatus)).None?
    ensures CustomersFound(r).1.None?
    ensures CustomersFound(r).0 == [] <==> r.out.value.items == [] || IsNotFoundSentinel(r.out.value.items)
    ensures |r.out.value.items| != 1 ==> CustomersFound(r).0 == r.out.value.items
  {
  }

  /** The sentinel is recognised without regard to case. */
  lemma SentinelIgnoresCase(status: ApiStatus, c: Customer)
    requires status.status == 1 && c.firstName == "NO CUSTOMER FOUND"
    ensures CustomersFound(Reply(None, None, Some(ListResponse(status, [c])))) == ([], None)
  {
    assert EqualFold(c.firstName, NoCustomerFound);
  }

  /** The request CreateCustomer posts: customer type "0" and no id; the names, email and
      phone both on the customer and on its address; the address lines, of type 2; the email
      flag set exactly when there is an email, the SMS flag exactly when there is a phone,
      and the address's notify flags mirroring them. */
  ghost predicate IsCustomerRequest(req: CustomerRequest, firstName: string, lastName: string, email: string,
                                    phone: string, addr: string, addr2: string, zip: string, city: string,
                                    state: string) {
    && req.firstName == firstName && req.lastName == lastName
    && req.email == email && req.primaryPhone == phone
    && req.customerType == "0" && req.customerId == 0
    && (req.isSendEmail <==> email != "")
    && (req.isSendSms <==> phone != "")
    && req.address == Address(0, 2, addr, addr2, zip, city, state, "", "",
                              firstName, lastName, phone, email, req.isSendEmail, req.isSendSms)
  }

  /** The request CreateCustomer fills in field by field. */
  method NewCustomerRequest(firstName: string, lastName: string, email: string, phone: string,
                            addr: string, addr2: string, zip: string, city: string, state: string)
    returns (request: CustomerRequest)
    ensures request.firstName == firstName && request.lastName == lastName
    ensures request.email == email && request.primaryPhone == phone
    ensures request.customerType == "0" && request.customerId == 0
    ensures request.isSendEmail <==> email != ""
    ensures request.isSendSms <==> phone != ""
    ensures request.address == Address(0, 2, addr, addr2, zip, city, state, "", "",
                                       firstName, lastName, phone, email,
                                       request.isSendEmail, request.isSendSms)
    ensures IsCustomerRequest(request, firstName, lastName, email, phone, addr, addr2, zip, city, state)
  {
    var zero := Address(0, 0, "", "", "", "", "", "", "", "", "", "", "", false, false);
    request := CustomerRequest("", "", "", "", "", 0, false, false, zero);

    request := request.(firstName := firstName, lastName := lastName, customerType := "0");
    request := request.(email := email, primaryPhone := phone);
    request := request.(isSendEmail := |email| > 0, isSendSms := |phone| > 0);

    var address := request.address;
    address := address.(addressLine1 := addr, addressLine2 := addr2, zip := zip, city := city, state := state);
    address := address.(addressType := 2);
    address := address.(firstName := firstName, lastName := lastName, primaryPhone := phone, email := email);
    address := address.(notifyEmail := request.isSendEmail, notifyPrimaryPhone := request.isSendSms);
    request := request.(address := address);
  }

  /** What CreateCustomer makes of the reply: the error or the error object first, then a
      failing envelope; an empty list means nothing was created; otherwise the first
      customer. */
  function CustomerCreated(r: Reply<ListResponse<Customer>>): (res: (Option<Customer>, Option<Failure>))
    requires Complete(r)
    ensures res.0.Some? <==> res.1.None?
    ensures Screened(r).Some? ==> res.1 == Screened(r)
    ensures Screened(r).None? ==>
      var resp := r.out.value;
      && (StatusError(Some(resp.apiStatus)).Some? ==> res.1 == StatusError(Some(resp.apiStatus)))
      && (StatusError(Some(resp.apiStatus)).None? && resp.items == [] ==> res.1 == Some(New(CustomerNotCreated)))
      && (StatusError(Some(resp.apiStatus)).None? && resp.items != [] ==> res.0 == Some(resp.items[0]))
  {
    match Screened(r)
    case Some(f) => (None, Some(f))
    case None =>
      var resp := r.out.value;
      var err := StatusError(Some(resp.apiStatus));
      if err.Some? then (None, err)
      else if |resp.items| == 0 then (None, Some(New(CustomerNotCreated)))
      else (Some(resp.items[0]), None)
  }

  /** SearchCustomers; `query` is the encoded CustomerName parameter. */
  method SearchCustomers(sw: ServiceWorks, token: string, query: string, network: Network<ListResponse<Customer>>)
    returns (customers: seq<Customer>, err: Option<Failure>, sent: Option<Request<()>>)
    modifies sw
    ensures sw.url == NormalizedUrl(old(sw.url))
    ensures (customers, err) == CustomersFound(SendReply(network, true, SearchPath + query))
    ensures sent.Some? <==> network.rejected.None?
    ensures sent.Some? ==>
      && sent.value.verb == "GET" && sent.value.url == sw.url + "/" + SearchPath + query
      && sent.value.body.None? && CopiedFrom(map["Token" := token], sent.value.header)
  {
    var header := new Header();
    header.Put("Token", token);

    var reply;
    reply, sent := sw.Send("GET", SearchPath + query, header, None, true, network);
    customers, err := CustomersFound(reply).0, CustomersFound(reply).1;
  }

  /** CreateCustomer: post the new customer and return the one the platform created. */
  method CreateCustomer(sw: ServiceWorks, token: string, firstName: string, lastName: string, email: string,
                        phone: string, addr: string, addr2: string, zip: string, city: string, state: string,
                        network: Network<ListResponse<Customer>>)
    returns (customer: Option<Customer>, err: Option<Failure>, sent: Option<Request<CustomerRequest>>)
    modifies sw
    ensures sw.url == NormalizedUrl(old(sw.url))
    ensures (customer, err) == CustomerCreated(SendReply(network, true, CreatePath))
    ensures sent.Some? <==> network.rejected.None?
    ensures sent.Some? ==>
      && sent.value.verb == "POST" && sent.value.url == sw.url + "/" + CreatePath
      && sent.value.body.Some?
      && IsCustomerRequest(sent.value.body.value, firstName, lastName, email, phone, addr, addr2, zip, city, state)
      && CopiedFrom(map["Token" := token, ContentType := JsonContentType], sent.value.header)
  {
    var header := new Header();
    header.Put("Token", token);

    var request := NewCustomerRequest(firstName, lastName, email, phone, addr, addr2, zip, city, state);

    var reply;
    reply, sent := sw.Send("POST", CreatePath, header, Some(request), true, network);
    customer, err := CustomerCreated(reply).0, CustomerCreated(reply).1;
  }
}
