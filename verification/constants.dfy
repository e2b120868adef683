/** The literal data of utils/constants.ts that the modelled code reads. */
module Constants {

  // ERROR_MESSAGES
  const ErrorDefault: string := "Something went wrong. Please try again."
  const ErrorAuth: string := "Authentication failed. Please check your credentials and try again."

  // ROUTES
  const RouteLogin: string := "Login"
  const RouteRegister: string := "Register"
  const RouteDashboard: string := "Dashboard"
  const RouteCustomers: string := "Customers"
  const RouteCustomerDetails: string := "CustomerDetails"
  const RouteInvoices: string := "Invoices"
  const RouteInvoiceCreate: string := "InvoiceCreate"
  const RouteInvoiceDetails: string := "InvoiceDetails"
  const RouteEstimates: string := "Estimates"
  const RouteEstimateCreate: string := "EstimateCreate"
  const RouteEstimateDetails: string := "EstimateDetails"
  const RouteContracts: string := "Contracts"
  const RouteContractCreate: string := "ContractCreate"
  const RouteContractDetails: string := "ContractDetails"
  const RouteAppointments: string := "Appointments"
  const RouteAppointmentCreate: string := "AppointmentCreate"
  const RouteAppointmentDetails: string := "AppointmentDetails"
  const RouteDocuments: string := "Documents"
  const RouteDocumentScan: string := "DocumentScan"
  const RouteDocumentDetails: string := "DocumentDetails"
  const RouteSettings: string := "Settings"
  const RouteDesignSystem: string := "DesignSystem"

  // TAB_SCREENS
  const TabScreens: seq<string> :=
    [RouteDashboard, RouteCustomers, RouteInvoices, RouteAppointments, RouteDocuments]
}
