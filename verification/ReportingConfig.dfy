/** The reporting credentials kept in ~/.ae-cli/reporting.json. */
module ReportingConfig {
  import opened Results
  import opened GoStrings

  /** A file on disk: absent, unreadable, or holding a value. */
  datatype Stored<+T> = Missing | Corrupt | Stored(value: T)

  datatype Protocol = Protocol(ledgerEpoch: string, v1WritePolicy: string, minimumCLIVersion: string) {
    /** Validate reports no error. */
    predicate Valid() {
      var epoch, policy := TrimSpace(ledgerEpoch), TrimSpace(v1WritePolicy);
      || (epoch == "shadow_v2" && policy == "accept" && Blank(minimumCLIVersion))
      || ((epoch == "shadow_v2" || epoch == "formal_v2") && policy == "upgrade_required" && !Blank(minimumCLIVersion))
    }
  }

  const NO_PROTOCOL := Protocol("", "", "")

  datatype Config = Config(
    installationID: string, serverURL: string, authSubject: string, relayProviderID: int,
    reporterToken: string, otlpToken: string, reportingEnabled: bool, enabledAt: Option<int>, protocol: Protocol)

  function NewConfig(installationID: string): Config {
    Config(installationID, "", "", 0, "", "", false, None, NO_PROTOCOL)
  }

  /** loadEnabledReportingConfig: the stored config, when it is fit for compact reporting. */
  function EnabledConfig(file: Stored<Config>): Option<Config> {
    if file.Stored? && file.value.protocol.Valid() && file.value.reportingEnabled && !Blank(file.value.reporterToken)
    then Some(file.value)
    else None
  }
}
