/**
 * The permission matrix of the clinic client: a closed enumeration of
 * permissions, a read-only table from role name to the permissions that role
 * is granted, membership queries over that table and human-readable labels.
 * The table is built once and never changes, so everything here is a value.
 */
module RolePermissions {

  /** The permissions of the system, in declaration order. */
  datatype Permission =
    // Dashboard
    | ViewDashboard | ViewReports | ViewFinancialMetrics
    // Clients
    | ViewClients | CreateClient | EditClient | DeleteClient | ViewClientHistory
    // Products
    | ViewProducts | CreateProduct | EditProduct | DeleteProduct | ManageStock | ManagePrices
    // Appointments
    | ViewAppointments | CreateAppointment | EditAppointment | CancelAppointment
    | ConfirmAppointment | CompleteAppointment | ViewAllProfessionalsSchedule
    // Sales
    | ViewSales | CreateSale | EditSale | CancelSale | ApplyDiscounts | ViewSalesReport
    // Expenses
    | ViewExpenses | CreateExpense | EditExpense | DeleteExpense | ViewExpenseReport
    // Settings
    | ManageUsers | ManageSettings | ManageIntegrations | ManagePlans
    // Notifications
    | SendNotifications | ViewInternalMessages

  /** Every permission value, in declaration order (what enumerating the values of the enum yields). */
  const AllPermissions: seq<Permission> := [
    ViewDashboard, ViewReports, ViewFinancialMetrics,
    ViewClients, CreateClient, EditClient, DeleteClient, ViewClientHistory,
    ViewProducts, CreateProduct, EditProduct, DeleteProduct, ManageStock, ManagePrices,
    ViewAppointments, CreateAppointment, EditAppointment, CancelAppointment,
    ConfirmAppointment, CompleteAppointment, ViewAllProfessionalsSchedule,
    ViewSales, CreateSale, EditSale, CancelSale, ApplyDiscounts, ViewSalesReport,
    ViewExpenses, CreateExpense, EditExpense, DeleteExpense, ViewExpenseReport,
    ManageUsers, ManageSettings, ManageIntegrations, ManagePlans,
    SendNotifications, ViewInternalMessages
  ]

  /** The five role names that have an entry in the table. */
  const KnownRoles: set<string> := {"SuperAdmin", "TenantAdmin", "Professional", "Receptionist", "Customer"}

  /** The business owner: everything except plan management. */
  const TenantAdminPermissions: seq<Permission> := [
    ViewDashboard, ViewReports, ViewFinancialMetrics,
    ViewClients, CreateClient, EditClient, DeleteClient, ViewClientHistory,
    ViewProducts, CreateProduct, EditProduct, DeleteProduct, ManageStock, ManagePrices,
    ViewAppointments, CreateAppointment, EditAppointment, CancelAppointment,
    ConfirmAppointment, CompleteAppointment, ViewAllProfessionalsSchedule,
    ViewSales, CreateSale, EditSale, CancelSale, ApplyDiscounts, ViewSalesReport,
    ViewExpenses, CreateExpense, EditExpense, DeleteExpense, ViewExpenseReport,
    ManageUsers, ManageSettings, ManageIntegrations,
    SendNotifications, ViewInternalMessages
  ]

  /** A professional: no deletions, no user, settings, integration or plan management. */
  const ProfessionalPermissions: seq<Permission> := [
    ViewDashboard, ViewReports, ViewFinancialMetrics,
    ViewClients, CreateClient, EditClient, ViewClientHistory,
    ViewProducts, CreateProduct, EditProduct, ManageStock, ManagePrices,
    ViewAppointments, CreateAppointment, EditAppointment, CancelAppointment,
    ConfirmAppointment, CompleteAppointment, ViewAllProfessionalsSchedule,
    ViewSales, CreateSale, EditSale, ApplyDiscounts, ViewSalesReport,
    ViewExpenses, CreateExpense, EditExpense, ViewExpenseReport,
    SendNotifications, ViewInternalMessages
  ]

  /** The front desk: day-to-day operations without the financial views. */
  const ReceptionistPermissions: seq<Permission> := [
    ViewDashboard,
    ViewClients, CreateClient, EditClient, ViewClientHistory,
    ViewProducts,
    ViewAppointments, CreateAppointment, EditAppointment, CancelAppointment,
    ConfirmAppointment, ViewAllProfessionalsSchedule,
    ViewSales, CreateSale,
    SendNotifications, ViewInternalMessages
  ]

  /** The end customer: sees and books appointments. */
  const CustomerPermissions: seq<Permission> := [ViewAppointments, CreateAppointment]

  /**
   * The role table. SuperAdmin's entry is AllPermissions, which lists every
   * permission in declaration order (AllPermissionsEnumerates, OrdinalIndexesEnumeration).
   */
  const RoleTable: map<string, seq<Permission>> := map[
    "SuperAdmin" := AllPermissions,
    "TenantAdmin" := TenantAdminPermissions,
    "Professional" := ProfessionalPermissions,
    "Receptionist" := ReceptionistPermissions,
    "Customer" := CustomerPermissions
  ]

  /** The permissions listed for `role`; an unknown role yields the empty list and never fails. */
  function GetRolePermissions(role: string): (granted: seq<Permission>)
    ensures role !in KnownRoles ==> granted == []
    ensures role in KnownRoles ==> granted != []
    ensures role == "SuperAdmin" ==> granted == AllPermissions
  {
    if role in RoleTable then RoleTable[role] else []
  }

  /** Whether `role` grants `permission`: false for an unknown role, never a failure. */
  function HasPermission(role: string, permission: Permission): (granted: bool)
    ensures granted <==> permission in GetRolePermissions(role)
    ensures role !in KnownRoles ==> !granted
  {
    if role !in RoleTable then false else permission in RoleTable[role]
  }

  /** Whether at least one of `permissions` passes HasPermission; false for an empty list. */
  function HasAnyPermission(role: string, permissions: seq<Permission>): (granted: bool)
    ensures granted <==> exists i :: 0 <= i < |permissions| && permissions[i] in GetRolePermissions(role)
    ensures permissions == [] ==> !granted
  {
    if permissions == [] then false
    else HasPermission(role, permissions[0]) || HasAnyPermission(role, permissions[1..])
  }

  /** Whether every one of `permissions` passes HasPermission; true for an empty list. */
  function HasAllPermissions(role: string, permissions: seq<Permission>): (granted: bool)
    ensures granted <==> forall i :: 0 <= i < |permissions| ==> permissions[i] in GetRolePermissions(role)
    ensures permissions == [] ==> granted
  {
    if permissions == [] then true
    else HasPermission(role, permissions[0]) && HasAllPermissions(role, permissions[1..])
  }

  /** The underlying value of a permission's enum constant: its position in the declaration. */
  function Ordinal(permission: Permission): (ordinal: nat)
    ensures ordinal < |AllPermissions|
  {
    match permission
    case ViewDashboard => 0
    case ViewReports => 1
    case ViewFinancialMetrics => 2
    case ViewClients => 3
    case CreateClient => 4
    case EditClient => 5
    case DeleteClient => 6
    case ViewClientHistory => 7
    case ViewProducts => 8
    case CreateProduct => 9
    case EditProduct => 10
    case DeleteProduct => 11
    case ManageStock => 12
    case ManagePrices => 13
    case ViewAppointments => 14
    case CreateAppointment => 15
    case EditAppointment => 16
    case CancelAppointment => 17
    case ConfirmAppointment => 18
    case CompleteAppointment => 19
    case ViewAllProfessionalsSchedule => 20
    case ViewSales => 21
    case CreateSale => 22
    case EditSale => 23
    case CancelSale => 24
    case ApplyDiscounts => 25
    case ViewSalesReport => 26
    case ViewExpenses => 27
    case CreateExpense => 28
    case EditExpense => 29
    case DeleteExpense => 30
    case ViewExpenseReport => 31
    case ManageUsers => 32
    case ManageSettings => 33
    case ManageIntegrations => 34
    case ManagePlans => 35
    case SendNotifications => 36
    case ViewInternalMessages => 37
  }

  /** The set of permissions `role` is granted. */
  function Granted(role: string): set<Permission>
  {
    set p | p in GetRolePermissions(role)
  }

  /** The name of a permission's enum constant. */
  function PermissionName(permission: Permission): (name: string)
    ensures |name| > 0
  {
    match permission
    case ViewDashboard => "ViewDashboard"
    case ViewReports => "ViewReports"
    case ViewFinancialMetrics => "ViewFinancialMetrics"
    case ViewClients => "ViewClients"
    case CreateClient => "CreateClient"
    case EditClient => "EditClient"
    case DeleteClient => "DeleteClient"
    case ViewClientHistory => "ViewClientHistory"
    case ViewProducts => "ViewProducts"
    case CreateProduct => "CreateProduct"
    case EditProduct => "EditProduct"
    case DeleteProduct => "DeleteProduct"
    case ManageStock => "ManageStock"
    case ManagePrices => "ManagePrices"
    case ViewAppointments => "ViewAppointments"
    case CreateAppointment => "CreateAppointment"
    case EditAppointment => "EditAppointment"
    case CancelAppointment => "CancelAppointment"
    case ConfirmAppointment => "ConfirmAppointment"
    case CompleteAppointment => "CompleteAppointment"
    case ViewAllProfessionalsSchedule => "ViewAllProfessionalsSchedule"
    case ViewSales => "ViewSales"
    case CreateSale => "CreateSale"
    case EditSale => "EditSale"
    case CancelSale => "CancelSale"
    case ApplyDiscounts => "ApplyDiscounts"
    case ViewSalesReport => "ViewSalesReport"
    case ViewExpenses => "ViewExpenses"
    case CreateExpense => "CreateExpense"
    case EditExpense => "EditExpense"
    case DeleteExpense => "DeleteExpense"
    case ViewExpenseReport => "ViewExpenseReport"
    case ManageUsers => "ManageUsers"
    case ManageSettings => "ManageSettings"
    case ManageIntegrations => "ManageIntegrations"
    case ManagePlans => "ManagePlans"
    case SendNotifications => "SendNotifications"
    case ViewInternalMessages => "ViewInternalMessages"
  }

  /** The permissions that have no label of their own and are described by their enum name. */
  const Unlabelled: set<Permission> := {
    ViewClientHistory, EditProduct, DeleteProduct, ManageStock,
    EditAppointment, CancelAppointment, ConfirmAppointment, CompleteAppointment,
    ViewAllProfessionalsSchedule, EditSale, CancelSale, ViewSalesReport,
    EditExpense, DeleteExpense, ViewExpenseReport,
    ManageIntegrations, ManagePlans, SendNotifications, ViewInternalMessages
  }

  /** A readable (Spanish) label for a permission; falls back to the enum name. */
  function GetPermissionDescription(permission: Permission): (description: string)
    ensures |description| > 0
    ensures permission in Unlabelled ==> description == PermissionName(permission)
  {
    match permission
    case ViewDashboard => "Ver panel principal"
    case ViewReports => "Ver reportes"
    case ViewFinancialMetrics => "Ver métricas financieras"
    case ViewClients => "Ver clientes"
    case CreateClient => "Crear clientes"
    case EditClient => "Editar clientes"
    case DeleteClient => "Eliminar clientes"
    case ViewProducts => "Ver productos"
    case CreateProduct => "Crear productos"
    case ManagePrices => "Gestionar precios"
    case ViewAppointments => "Ver turnos"
    case CreateAppointment => "Crear turnos"
    case ViewSales => "Ver ventas"
    case CreateSale => "Crear ventas"
    case ApplyDiscounts => "Aplicar descuentos"
    case ViewExpenses => "Ver gastos"
    case CreateExpense => "Registrar gastos"
    case ManageUsers => "Gestionar usuarios"
    case ManageSettings => "Gestionar configuración"
    case _ => PermissionName(permission)
  }

  // ---------------------------------------------------------------------------
  // Properties of the matrix
  // ---------------------------------------------------------------------------

  /** Each permission sits in the enumeration at its own ordinal. */
  lemma OrdinalIndexesEnumeration(p: Permission)
    ensures Ordinal(p) < |AllPermissions| && AllPermissions[Ordinal(p)] == p
  {
    // One case per constructor, so that each ordinal is a literal.
    match p
    case ViewDashboard =>
    case ViewReports =>
    case ViewFinancialMetrics =>
    case ViewClients =>
    case CreateClient =>
    case EditClient =>
    case DeleteClient =>
    case ViewClientHistory =>
    case ViewProducts =>
    case CreateProduct =>
    case EditProduct =>
    case DeleteProduct =>
    case ManageStock =>
    case ManagePrices =>
    case ViewAppointments =>
    case CreateAppointment =>
    case EditAppointment =>
    case CancelAppointment =>
    case ConfirmAppointment =>
    case CompleteAppointment =>
    case ViewAllProfessionalsSchedule =>
    case ViewSales =>
    case CreateSale =>
    case EditSale =>
    case CancelSale =>
    case ApplyDiscounts =>
    case ViewSalesReport =>
    case ViewExpenses =>
    case CreateExpense =>
    case EditExpense =>
    case DeleteExpense =>
    case ViewExpenseReport =>
    case ManageUsers =>
    case ManageSettings =>
    case ManageIntegrations =>
    case ManagePlans =>
    case SendNotifications =>
    case ViewInternalMessages =>
  }

  /** No permission occurs twice in the enumeration. */
  lemma AllPermissionsDistinct()
    ensures forall i, j :: 0 <= i < j < |AllPermissions| ==> AllPermissions[i] != AllPermissions[j]
  {
    forall i, j | 0 <= i < j < |AllPermissions|
      ensures AllPermissions[i] != AllPermissions[j]
    {
      EnumerationIndexesOrdinal(i);
      EnumerationIndexesOrdinal(j);
    }
  }

  /** The permission at position `i` of the enumeration has ordinal `i`. */
  lemma EnumerationIndexesOrdinal(i: nat)
    requires i < |AllPermissions|
    ensures Ordinal(AllPermissions[i]) == i
  {
    if i < 8 {
      DashboardAndClientOrdinals(i);
    } else if i < 14 {
      ProductOrdinals(i);
    } else if i < 21 {
      AppointmentOrdinals(i);
    } else if i < 27 {
      SaleOrdinals(i);
    } else if i < 32 {
      ExpenseOrdinals(i);
    } else {
      SettingsAndNotificationOrdinals(i);
    }
  }

  /** Dashboard and client permissions: each position holds the permission of that ordinal. */
  lemma DashboardAndClientOrdinals(i: nat)
    requires 0 <= i < 8
    ensures Ordinal(AllPermissions[i]) == i
  {
    if i < 4 {
      if i < 2 {
        if i < 1 {
          assert i == 0;
        } else {
          assert i == 1;
        }
      } else {
        if i < 3 {
          assert i == 2;
        } else {
          assert i == 3;
        }
      }
    } else {
      if i < 6 {
        if i < 5 {
          assert i == 4;
        } else {
          assert i == 5;
        }
      } else {
        if i < 7 {
          assert i == 6;
        } else {
          assert i == 7;
        }
      }
    }
  }

  /** Product permissions: each position holds the permission of that ordinal. */
  lemma ProductOrdinals(i: nat)
    requires 8 <= i < 14
    ensures Ordinal(AllPermissions[i]) == i
  {
    if i < 11 {
      if i < 9 {
        assert i == 8;
      } else {
        if i < 10 {
          assert i == 9;
        } else {
          assert i == 10;
        }
      }
    } else {
      if i < 12 {
        assert i == 11;
      } else {
        if i < 13 {
          assert i == 12;
        } else {
          assert i == 13;
        }
      }
    }
  }

  /** Appointment permissions: each position holds the permission of that ordinal. */
  lemma AppointmentOrdinals(i: nat)
    requires 14 <= i < 21
    ensures Ordinal(AllPermissions[i]) == i
  {
    if i < 17 {
      if i < 15 {
        assert i == 14;
      } else {
        if i < 16 {
          assert i == 15;
        } else {
          assert i == 16;
        }
      }
    } else {
      if i < 19 {
        if i < 18 {
          assert i == 17;
        } else {
          assert i == 18;
        }
      } else {
        if i < 20 {
          assert i == 19;
        } else {
          assert i == 20;
        }
      }
    }
  }

  /** Sale permissions: each position holds the permission of that ordinal. */
  lemma SaleOrdinals(i: nat)
    requires 21 <= i < 27
    ensures Ordinal(AllPermissions[i]) == i
  {
    if i < 24 {
      if i < 22 {
        assert i == 21;
      } else {
        if i < 23 {
          assert i == 22;
        } else {
          assert i == 23;
        }
      }
    } else {
      if i < 25 {
        assert i == 24;
      } else {
        if i < 26 {
          assert i == 25;
        } else {
          assert i == 26;
        }
      }
    }
  }

  /** Expense permissions: each position holds the permission of that ordinal. */
  lemma ExpenseOrdinals(i: nat)
    requires 27 <= i < 32
    ensures Ordinal(AllPermissions[i]) == i
  {
    if i < 29 {
      if i < 28 {
        assert i == 27;
      } else {
        assert i == 28;
      }
    } else {
      if i < 30 {
        assert i == 29;
      } else {
        if i < 31 {
          assert i == 30;
        } else {
          assert i == 31;
        }
      }
    }
  }

  /** Settings and notification permissions: each position holds the permission of that ordinal. */
  lemma SettingsAndNotificationOrdinals(i: nat)
    requires 32 <= i < 38
    ensures Ordinal(AllPermissions[i]) == i
  {
    if i < 35 {
      if i < 33 {
        assert i == 32;
      } else {
        if i < 34 {
          assert i == 33;
        } else {
          assert i == 34;
        }
      }
    } else {
      if i < 36 {
        assert i == 35;
      } else {
        if i < 37 {
          assert i == 36;
        } else {
          assert i == 37;
        }
      }
    }
  }

  /** The enumeration lists every permission. */
  lemma AllPermissionsEnumerates(p: Permission)
    ensures p in AllPermissions
  {
    OrdinalIndexesEnumeration(p);
  }

  /** SuperAdmin is granted every permission. */
  lemma SuperAdminGrantedEverything(p: Permission)
    ensures HasPermission("SuperAdmin", p)
  {
    AllPermissionsEnumerates(p);
  }

  /** For SuperAdmin, asking for any of a list succeeds exactly when the list is not empty. */
  lemma {:induction false} SuperAdminHasAnyOfNonEmpty(permissions: seq<Permission>)
    ensures HasAnyPermission("SuperAdmin", permissions) <==> permissions != []
  {
    if permissions != [] {
      SuperAdminGrantedEverything(permissions[0]);
    }
  }

  /** A role outside the table is granted nothing and lists nothing; neither query fails. */
  lemma UnknownRoleGrantedNothing(role: string, p: Permission)
    requires role !in KnownRoles
    ensures !HasPermission(role, p)
    ensures GetRolePermissions(role) == [] && Granted(role) == {}
  {
  }

  /** For a non-empty list, holding all of it implies holding some of it. */
  lemma HasAllImpliesHasAny(role: string, permissions: seq<Permission>)
    requires permissions != [] && HasAllPermissions(role, permissions)
    ensures HasAnyPermission(role, permissions)
  {
    assert permissions[0] in GetRolePermissions(role);
  }

  /** The customer holds exactly the two appointment permissions and nothing else. */
  lemma CustomerGrantedExactly()
    ensures Granted("Customer") == {ViewAppointments, CreateAppointment}
  {
  }

  /** The tenant administrator holds every permission except plan management. */
  lemma TenantAdminGrantedAllButPlans(p: Permission)
    ensures HasPermission("TenantAdmin", p) <==> p != ManagePlans
  {
    OrdinalIndexesEnumeration(p);
    assert TenantAdminPermissions == AllPermissions[..35] + AllPermissions[36..];
    assert AllPermissions[35] == ManagePlans;
  }

  /** The granted sets nest: Customer, Receptionist, Professional, TenantAdmin, SuperAdmin. */
  lemma GrantedSetsNest()
    ensures Granted("Customer") <= Granted("Receptionist")
    ensures Granted("Receptionist") <= Granted("Professional")
    ensures Granted("Professional") <= Granted("TenantAdmin")
    ensures Granted("TenantAdmin") <= Granted("SuperAdmin")
  {
    forall p | p in TenantAdminPermissions
      ensures p in AllPermissions
    {
      AllPermissionsEnumerates(p);
    }
  }

  /** The description falls back to the enum name exactly for the unlabelled permissions. */
  lemma DescriptionFallsBackExactlyWhenUnlabelled(p: Permission)
    ensures GetPermissionDescription(p) == PermissionName(p) <==> p in Unlabelled
  {
  }

  /** Two representative descriptions: a labelled permission and one that falls back. */
  lemma DescriptionExamples()
    ensures GetPermissionDescription(ViewDashboard) == "Ver panel principal"
    ensures GetPermissionDescription(EditAppointment) == "EditAppointment"
  {
  }
}
