/**
 * The outbound inquiry mail. The relay and the build-time configuration
 * are outside the model: the configuration is a parameter and the relay's
 * answer is an oracle value.
 */
module EmailService {

  /** The inquiry draft: five free-text fields. */
  datatype ContactFormData = ContactFormData(name: string, phone: string, marka: string, vin: string, message: string)

  /** Service id, template id and public key; a missing one is "". */
  datatype EmailConfig = EmailConfig(serviceId: string, templateId: string, publicKey: string)

  /** What the relay call does: resolve, or reject (any thrown error). */
  datatype RelayAnswer = Acknowledged | Rejected

  /** `sendContactEmail`: false without a complete configuration, otherwise
      whether the relay acknowledged; it catches every error itself. */
  function SendContactEmail(config: EmailConfig, data: ContactFormData, relay: RelayAnswer): (sent: bool)
    ensures sent ==> config.serviceId != "" && config.templateId != "" && config.publicKey != ""
    ensures sent ==> relay == Acknowledged
    ensures relay == Acknowledged && config.serviceId != "" && config.templateId != "" && config.publicKey != "" ==> sent
  {
    if config.serviceId == "" || config.templateId == "" || config.publicKey == "" then false
    else
      match relay
      case Acknowledged => true
      case Rejected => false
  }
}
