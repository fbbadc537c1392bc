// The roles of the users table.
module Roles {
  datatype Role = SuperAdmin | CooperativeAdmin | CooperativeStaff | FarmerUser | BuyerUser | Auditor
}
