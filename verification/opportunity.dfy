/** The decision logic of the CRM opportunity service: turning the lead of an
    opportunity into a client partner (`createClientFromLead`) and assigning
    the opportunity's sequence number (`setSequence`). The address, partner
    and sequence services are collaborators whose implementations are not
    part of this model; they appear as the functions of a `Services` value. */
module Opportunities {
  import opened Wrappers

  datatype Country = Country(name: string)
  datatype Currency = Currency(code: string)
  datatype Company = Company(name: Option<string>)
  datatype City = City(name: string)
  datatype EmailAddress = EmailAddress(address: Option<string>)

  /** The lead fields the conversion reads; `None` is a null field. */
  datatype Lead = Lead(
    fullName: Option<string>,
    primaryAddress: Option<string>,
    primaryPostalCode: Option<string>,
    primaryCity: Option<City>,
    primaryCountry: Option<Country>,
    emailAddress: Option<EmailAddress>,
    fixedPhone: Option<string>,
    mobilePhone: Option<string>)

  /** A partner record, identified by whatever the partner service returns. */
  datatype Partner = Partner(id: int)

  datatype Opportunity = Opportunity(
    lead: Option<Lead>,
    company: Option<Company>,
    currency: Option<Currency>,
    partner: Option<Partner>,
    opportunitySeq: Option<string>)

  /** An address as the address service builds it; only `fullName` is set
      afterwards by the conversion. */
  datatype Address = Address(
    addressL2: Option<string>,
    addressL3: Option<string>,
    addressL4: Option<string>,
    addressL5: Option<string>,
    addressL6: Option<string>,
    country: Option<Country>,
    fullName: Option<string>)

  /** The arguments of `AddressService.createAddress`, in order. */
  datatype AddressRequest = AddressRequest(
    addressL2: Option<string>,
    addressL3: Option<string>,
    addressL4: Option<string>,
    addressL5: Option<string>,
    addressL6: Option<string>,
    country: Option<Country>)

  /** The arguments of `PartnerService.createPartner`, in order: the name, a
      first name, the two phone numbers, the email, the currency, the address
      in its two positions, and a trailing flag. */
  datatype PartnerRequest = PartnerRequest(
    name: Option<string>,
    firstName: Option<string>,
    fixedPhone: Option<string>,
    mobilePhone: Option<string>,
    email: Option<EmailAddress>,
    currency: Option<Currency>,
    firstAddress: Option<Address>,
    secondAddress: Option<Address>,
    flag: bool)

  /** The collaborators, as deterministic functions of their arguments:
      address creation, address full-name computation, partner creation, and
      the opportunity sequence of a company (`None` when no sequence is
      configured). */
  datatype Services = Services(
    createAddress: AddressRequest -> Address,
    computeFullName: Address -> Option<string>,
    createPartner: PartnerRequest -> Option<Partner>,
    opportunitySequence: Option<Company> -> Option<string>)

  /** The configuration errors the two operations raise. */
  datatype Error =
    | LeadMissing
    | SequenceMissing(companyName: Option<string>)

  /** What a successful conversion yields: the updated opportunity (the
      record that is saved) and the partner the partner service returned,
      which may be null (the value returned). */
  datatype Conversion = Conversion(opportunity: Opportunity, partner: Option<Partner>)

  /** `w` occurs in `s` starting at index `i`. */
  predicate OccursAt(w: string, s: string, i: int) {
    0 <= i <= |s| - |w| && s[i..i + |w|] == w
  }

  /** `w` occurs in `s` as a contiguous piece. */
  predicate Occurs(w: string, s: string) {
    exists i :: 0 <= i <= |s| - |w| && OccursAt(w, s, i)
  }

  /** Address line 6: the postal code followed by one space when there is a
      postal code, then the city name when there is a city. An absent part
      contributes nothing rather than the text "null". */
  function AddressLine6(postalCode: Option<string>, city: Option<City>): (s: string)
    ensures postalCode.None? && city.None? ==> s == ""
    ensures postalCode.None? && city.Some? ==> s == city.value.name
    ensures postalCode.Some? ==>
      var pc := postalCode.value;
      && |pc| < |s|
      && s[..|pc|] == pc
      && s[|pc|] == ' '
      && s[|pc| + 1..] == (if city.Some? then city.value.name else "")
  {
    var prefix := if postalCode.None? then "" else postalCode.value + " ";
    prefix + (if city.None? then "" else city.value.name)
  }

  /** Joining two texts with a space cannot create an occurrence of "null":
      any occurrence lies wholly within one of the two. */
  lemma NullNotCreatedBySpace(a: string, b: string)
    requires !Occurs("null", a) && !Occurs("null", b)
    ensures !Occurs("null", a + " " + b)
  {
    var s := a + " " + b;
    forall i | 0 <= i <= |s| - 4
      ensures !OccursAt("null", s, i)
    {
      if i + 4 <= |a| {
        assert s[i..i + 4] == a[i..i + 4];
        assert !OccursAt("null", a, i);
      } else if i <= |a| {
        assert s[i..i + 4][|a| - i] == s[|a|] == ' ';
      } else {
        var j := i - |a| - 1;
        assert s[i..i + 4] == b[j..j + 4];
        assert !OccursAt("null", b, j);
      }
    }
  }

  /** Address line 6 contains "null" only when the postal code or the city
      name itself does: the composition never introduces it. */
  lemma AddressLine6NeverPrintsNull(postalCode: Option<string>, city: Option<City>)
    requires postalCode.Some? ==> !Occurs("null", postalCode.value)
    requires city.Some? ==> !Occurs("null", city.value.name)
    ensures !Occurs("null", AddressLine6(postalCode, city))
  {
    if postalCode.Some? {
      var name := if city.Some? then city.value.name else "";
      assert !Occurs("null", name);
      NullNotCreatedBySpace(postalCode.value, name);
      assert AddressLine6(postalCode, city) == postalCode.value + " " + name;
    }
  }

  /** The arguments of the address creation: the lead's primary address as
      line 4, the composed line 6, the lead's country, and nothing else. */
  function AddressRequestFor(lead: Lead): (q: AddressRequest)
    ensures q.addressL4 == lead.primaryAddress
    ensures q.addressL6 == Some(AddressLine6(lead.primaryPostalCode, lead.primaryCity))
    ensures q.country == lead.primaryCountry
    ensures q.addressL2.None? && q.addressL3.None? && q.addressL5.None?
  {
    AddressRequest(None, None, lead.primaryAddress, None,
                   Some(AddressLine6(lead.primaryPostalCode, lead.primaryCity)),
                   lead.primaryCountry)
  }

  /** The address given to the new partner: built only when the lead has a
      primary address, and then completed with its computed full name. */
  function LeadAddress(lead: Lead, svc: Services): (a: Option<Address>)
    ensures a.Some? <==> lead.primaryAddress.Some?
    ensures a.Some? ==>
      var built := svc.createAddress(AddressRequestFor(lead));
      a.value == built.(fullName := svc.computeFullName(built))
  {
    if lead.primaryAddress.None? then None
    else
      var built := svc.createAddress(AddressRequestFor(lead));
      Some(built.(fullName := svc.computeFullName(built)))
  }

  /** The email given to the new partner: a new email address carrying the
      lead's address string, only when the lead has one. As a value it equals
      the lead's own email; object identity is not modelled. */
  function LeadEmail(lead: Lead): (e: Option<EmailAddress>)
    ensures e.Some? <==> lead.emailAddress.Some?
    ensures e.Some? ==> e.value.address == lead.emailAddress.value.address
  {
    match lead.emailAddress
    case None => None
    case Some(email) => Some(EmailAddress(email.address))
  }

  /** The arguments of the partner creation for a lead and an opportunity. */
  function PartnerRequestFor(lead: Lead, opportunity: Opportunity, svc: Services): (q: PartnerRequest)
    ensures q.name == lead.fullName && q.firstName.None?
    ensures q.fixedPhone == lead.fixedPhone && q.mobilePhone == lead.mobilePhone
    ensures q.email == LeadEmail(lead)
    ensures q.currency == opportunity.currency
    ensures q.firstAddress == q.secondAddress == LeadAddress(lead, svc)
    ensures q.flag
  {
    var address := LeadAddress(lead, svc);
    PartnerRequest(lead.fullName, None, lead.fixedPhone, lead.mobilePhone,
                   LeadEmail(lead), opportunity.currency, address, address, true)
  }

  /** Converts the opportunity's lead into a client partner. Without a lead
      it fails and nothing is created; otherwise whatever the partner service
      returns for the lead, null included, is stored on the opportunity, and
      nothing else of it changes. */
  function CreateClientFromLead(opportunity: Opportunity, svc: Services): (r: Result<Conversion, Error>)
    ensures r.Failure? <==> opportunity.lead.None?
    ensures r.Failure? ==> r.error == LeadMissing
    ensures r.Success? ==>
      && r.value.partner == svc.createPartner(PartnerRequestFor(opportunity.lead.value, opportunity, svc))
      && r.value.opportunity == opportunity.(partner := r.value.partner)
  {
    match opportunity.lead
    case None => Failure(LeadMissing)
    case Some(lead) =>
      var partner := svc.createPartner(PartnerRequestFor(lead, opportunity, svc));
      Success(Conversion(opportunity.(partner := partner), partner))
  }

  /** Assigns the company's next opportunity sequence number. When the
      sequence service yields none, it fails, naming the company if there is
      one, and the opportunity keeps its old number. */
  function SetSequence(opportunity: Opportunity, svc: Services): (r: Result<Opportunity, Error>)
    ensures var next := svc.opportunitySequence(opportunity.company);
      && (r.Failure? <==> next.None?)
      && (r.Success? ==> r.value == opportunity.(opportunitySeq := next))
    ensures r.Failure? ==>
      r.error == SequenceMissing(if opportunity.company.Some? then opportunity.company.value.name else None)
  {
    var next := svc.opportunitySequence(opportunity.company);
    if next.None? then
      Failure(SequenceMissing(if opportunity.company.Some? then opportunity.company.value.name else None))
    else
      Success(opportunity.(opportunitySeq := next))
  }

  /** Converting again from the converted opportunity sends the partner
      service the same request: the conversion reads nothing it writes. */
  lemma ConversionReadsNothingItWrites(opportunity: Opportunity, svc: Services)
    requires opportunity.lead.Some?
    ensures var converted := CreateClientFromLead(opportunity, svc).value.opportunity;
      && converted.lead == opportunity.lead
      && PartnerRequestFor(converted.lead.value, converted, svc)
         == PartnerRequestFor(opportunity.lead.value, opportunity, svc)
  {
  }

  /** Assigning the sequence and converting the lead touch different fields,
      so they can be done in either order with the same outcome. */
  lemma SequenceAndConversionCommute(opportunity: Opportunity, svc: Services)
    requires opportunity.lead.Some?
    requires svc.opportunitySequence(opportunity.company).Some?
    ensures var sequenced := SetSequence(opportunity, svc).value;
      var converted := CreateClientFromLead(opportunity, svc).value;
      && CreateClientFromLead(sequenced, svc).value.partner == converted.partner
      && SetSequence(converted.opportunity, svc) == Success(CreateClientFromLead(sequenced, svc).value.opportunity)
  {
  }
}
