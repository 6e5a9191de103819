/** The facility record read from `data/gym_data.json`. Every section, and every
    field the prompt builder reads with `.get`, may be absent; the rule-based
    renderer indexes the fields it needs directly and so demands that they exist. */
module Facility {
  import opened Strings

  /** One entry of `membership.types`. Both consumers index these four fields directly. */
  datatype Plan = Plan(name: string, price: string, duration: string, features: seq<string>)

  datatype GymInfo = GymInfo(name: Option<string>)

  datatype MembershipInfo = MembershipInfo(types: Option<seq<Plan>>)

  datatype TrainerInfo = TrainerInfo(
    available: Option<bool>,
    info: Option<string>,
    specializations: Option<seq<string>>,
    pricing: Option<string>,
    booking: Option<string>)

  datatype TimingInfo = TimingInfo(weekdays: Option<string>, weekends: Option<string>, holidays: Option<string>)

  datatype FacilityInfo = FacilityInfo(
    equipment: Option<seq<string>>,
    amenities: Option<seq<string>>,
    classes: Option<seq<string>>)

  datatype ContactInfo = ContactInfo(phone: Option<string>, email: Option<string>, address: Option<string>)

  datatype GymData = GymData(
    gymInfo: Option<GymInfo>,
    membership: Option<MembershipInfo>,
    trainers: Option<TrainerInfo>,
    timings: Option<TimingInfo>,
    facilities: Option<FacilityInfo>,
    contact: Option<ContactInfo>)

  /** `data.get(section, {}).get(key, default)`: the stored value, or `default`
      when either the section or the key is missing. */
  function Lookup<S, T>(section: Option<S>, key: S -> Option<T>, default: T): (v: T)
    ensures section.Some? && key(section.value).Some? ==> v == key(section.value).value
    ensures section.None? || key(section.value).None? ==> v == default
  {
    match section
    case None => default
    case Some(s) => match key(s) case None => default case Some(x) => x
  }
}
