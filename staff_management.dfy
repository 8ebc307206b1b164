/**
 * The administrator's staff directory: a case-insensitive search over name,
 * email and department, an exact role filter, and the status badge colour.
 */
module StaffManagement {
  import Text
  import Seqs

  datatype StaffMember = StaffMember(
    id: int,
    name: string,
    email: string,
    phone: string,
    role: string,
    department: string,
    permissions: seq<string>,
    status: string,
    lastAccess: string,
    joinDate: string,
    certifications: seq<string>)

  const StaffMembers: seq<StaffMember> := [
    StaffMember(1, "Dr. Sarah Johnson", "sarah.johnson@hospital.com", "(555) 123-4567", "Doctor", "Cardiology",
                ["Read Patient Records", "Write Prescriptions", "Emergency Access"], "Active",
                "2024-06-20 14:30", "2020-03-15", ["Board Certified Cardiologist", "ACLS Certified"]),
    StaffMember(2, "Michael Chen", "michael.chen@hospital.com", "(555) 234-5678", "Nurse", "Emergency",
                ["Read Patient Records", "Update Vitals", "Emergency Access"], "Active",
                "2024-06-20 16:45", "2019-08-22", ["RN License", "BLS Certified", "PALS Certified"]),
    StaffMember(3, "Emily Davis", "emily.davis@hospital.com", "(555) 345-6789", "Administrator", "IT",
                ["System Administration", "User Management", "Audit Logs"], "Active",
                "2024-06-20 09:15", "2021-01-10", ["CISSP", "HIPAA Security Officer"]),
    StaffMember(4, "James Wilson", "james.wilson@hospital.com", "(555) 456-7890", "Technician", "Radiology",
                ["Read Patient Records", "Upload Imaging"], "Inactive",
                "2024-06-15 11:20", "2018-11-05", ["Radiology Technologist", "CT Certified"])
  ]

  predicate MatchesSearch(s: StaffMember, searchTerm: string) {
    var term := Text.ToLowerCase(searchTerm);
    Text.Includes(Text.ToLowerCase(s.name), term)
    || Text.Includes(Text.ToLowerCase(s.email), term)
    || Text.Includes(Text.ToLowerCase(s.department), term)
  }

  /** The role comparison is exact, not case-insensitive. */
  predicate MatchesRole(s: StaffMember, roleFilter: string) {
    roleFilter == "all" || s.role == roleFilter
  }

  predicate Kept(s: StaffMember, searchTerm: string, roleFilter: string) {
    MatchesSearch(s, searchTerm) && MatchesRole(s, roleFilter)
  }

  /** filteredStaff */
  function FilteredStaff(staff: seq<StaffMember>, searchTerm: string, roleFilter: string): seq<StaffMember> {
    Seqs.Filter(staff, (s: StaffMember) => Kept(s, searchTerm, roleFilter))
  }

  /** The result is a subsequence of the directory, and a member is kept exactly
      when the term occurs case-insensitively in name, email or department and
      the role filter is "all" or the role itself. */
  lemma FilteredStaffSpec(staff: seq<StaffMember>, searchTerm: string, roleFilter: string)
    ensures Seqs.IsSubsequence(FilteredStaff(staff, searchTerm, roleFilter), staff)
    ensures forall s :: s in FilteredStaff(staff, searchTerm, roleFilter) <==>
      s in staff
      && (Text.Includes(Text.ToLowerCase(s.name), Text.ToLowerCase(searchTerm))
          || Text.Includes(Text.ToLowerCase(s.email), Text.ToLowerCase(searchTerm))
          || Text.Includes(Text.ToLowerCase(s.department), Text.ToLowerCase(searchTerm)))
      && (roleFilter == "all" || s.role == roleFilter)
  {
    Seqs.FilterIsSubsequence(staff, (s: StaffMember) => Kept(s, searchTerm, roleFilter));
  }

  /** An empty term with "all" keeps everyone. */
  lemma EmptySearchKeepsEveryone(staff: seq<StaffMember>)
    ensures FilteredStaff(staff, "", "all") == staff
  {
    forall i | 0 <= i < |staff| ensures Kept(staff[i], "", "all") {
      Text.IncludesEmpty(Text.ToLowerCase(staff[i].name));
    }
    Seqs.FilterAllPass(staff, (s: StaffMember) => Kept(s, "", "all"));
  }

  /** Narrowing the role from "all" to a particular role keeps a subsequence. */
  lemma RoleFilterNarrows(staff: seq<StaffMember>, searchTerm: string, roleFilter: string)
    ensures Seqs.IsSubsequence(FilteredStaff(staff, searchTerm, roleFilter), FilteredStaff(staff, searchTerm, "all"))
  {
    Seqs.FilterWeaker(staff, (s: StaffMember) => Kept(s, searchTerm, roleFilter),
                             (s: StaffMember) => Kept(s, searchTerm, "all"));
  }

  const ActiveColor := "bg-green-100 text-green-800"
  const InactiveColor := "bg-red-100 text-red-800"

  /** getStatusColor */
  function StatusColor(status: string): string {
    if status == "Active" then ActiveColor else InactiveColor
  }

  /** Green exactly for "Active", red for every other status. */
  lemma StatusColorSpec(status: string)
    ensures StatusColor(status) == ActiveColor <==> status == "Active"
    ensures StatusColor(status) == InactiveColor <==> status != "Active"
  {
  }
}
