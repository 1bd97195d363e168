/**
 * The STM32F429 peripherals the GPIO driver touches: the eleven GPIO port
 * register blocks and the RCC clock enable register, with the field
 * positions and masks the driver takes from the device header.
 */
module Device {

  /** The GPIO port register blocks GPIOA to GPIOK. */
  datatype GpioBlock = GPIOA | GPIOB | GPIOC | GPIOD | GPIOE | GPIOF | GPIOG | GPIOH | GPIOI | GPIOJ | GPIOK

  /** Index into a block's two alternate function registers, AFR[0] (AFRL) and AFR[1] (AFRH). */
  type AfrIndex = i: nat | i < 2

  /** One 32-bit peripheral register. */
  datatype Reg =
    | Moder(block: GpioBlock)
    | Otyper(block: GpioBlock)
    | Ospeedr(block: GpioBlock)
    | Pupdr(block: GpioBlock)
    | Idr(block: GpioBlock)
    | Odr(block: GpioBlock)
    | Bsrr(block: GpioBlock)
    | Afr(block: GpioBlock, index: AfrIndex)
    | RccAhb1enr

  // Field positions and masks of the GPIO registers.
  const GPIO_MODER_MODER0_MSK: bv32 := 0x3
  const GPIO_MODER_MODER1_POS: bv5 := 2
  const GPIO_OSPEEDR_OSPEED0_MSK: bv32 := 0x3
  const GPIO_OSPEEDR_OSPEED1_POS: bv5 := 2
  const GPIO_PUPDR_PUPD0_MSK: bv32 := 0x3
  const GPIO_PUPDR_PUPD1_POS: bv5 := 2
  const GPIO_AFRL_AFSEL0_MSK: bv32 := 0xF
  const GPIO_AFRL_AFSEL1_POS: bv5 := 4
  const GPIO_BSRR_BR0_POS: bv5 := 16

  // Clock enable bits of the GPIO ports in RCC AHB1ENR.
  const RCC_AHB1ENR_GPIOAEN_POS: bv5 := 0
  const RCC_AHB1ENR_GPIOBEN_POS: bv5 := 1
  const RCC_AHB1ENR_GPIOCEN_POS: bv5 := 2
  const RCC_AHB1ENR_GPIODEN_POS: bv5 := 3
  const RCC_AHB1ENR_GPIOEEN_POS: bv5 := 4
  const RCC_AHB1ENR_GPIOFEN_POS: bv5 := 5
  const RCC_AHB1ENR_GPIOGEN_POS: bv5 := 6
  const RCC_AHB1ENR_GPIOHEN_POS: bv5 := 7
  const RCC_AHB1ENR_GPIOIEN_POS: bv5 := 8
  const RCC_AHB1ENR_GPIOJEN_POS: bv5 := 9
  const RCC_AHB1ENR_GPIOKEN_POS: bv5 := 10
}
