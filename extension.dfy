/** What the facade asks of a TLD-specific extension class: which operations it handles itself. */
module Extension {

  datatype Capabilities = Capabilities(registrationHandler: bool, renewalHandler: bool, transferHandler: bool)
}
